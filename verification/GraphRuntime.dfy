/**
 Execution and differentiation of a graph group by group, with every boundary value,
 buffer snapshot and gradient held as a handle of a tensor store.
 */
module GraphRuntime {
  import opened Graph
  import opened Gradients
  import opened Cuts
  import opened Ledger
  import opened Backward
  import Trace

  datatype GraphValue = GraphValue(consumers: seq<nat>, remaining: nat, nextUse: Option<nat>)

  type Gathered = map<nat, Option<nat>>

  datatype Tape = Tape(values: Handles, snapshots: seq<Handles>, rngs: seq<int>)

  /** Nothing stored was changed or freed. */
  predicate Grew(before: map<nat, real>, after: map<nat, real>) {
    forall h | h in before :: h in after && after[h] == before[h]
  }

  /** Nothing but record buffers was changed or freed. */
  ghost predicate TapeKept(owner: map<nat, Owner>, before: map<nat, real>, owner': map<nat, Owner>, after: map<nat, real>) {
    forall h | h in owner && !owner[h].BufferOf? && h in before ::
      h in owner' && owner'[h] == owner[h] && h in after && after[h] == before[h]
  }

  /** Nothing but tape values was changed or freed. */
  ghost predicate StateKept(owner: map<nat, Owner>, before: map<nat, real>, owner': map<nat, Owner>, after: map<nat, real>) {
    forall h | h in owner && !owner[h].ValueOf? && h in before ::
      h in owner' && owner'[h] == owner[h] && h in after && after[h] == before[h]
  }

  /** The handles of `m` hold the values `x`. */
  ghost predicate Stored(m: Handles, tensors: map<nat, real>, x: map<nat, real>) {
    forall k | k in m :: m[k] in tensors && tensors[m[k]] == Look(x, k)
  }

  ghost predicate AllStored(ms: seq<Handles>, tensors: map<nat, real>, x: map<nat, real>) {
    forall i | 0 <= i < |ms| :: Stored(ms[i], tensors, x)
  }

  /** The handles of a table that were live still are, with their values. */
  ghost predicate Survives(m: Handles, before: map<nat, real>, after: map<nat, real>) {
    forall k | k in m && m[k] in before :: m[k] in after && after[m[k]] == before[m[k]]
  }

  ghost predicate AllSurvive(ms: seq<Handles>, before: map<nat, real>, after: map<nat, real>) {
    forall i | 0 <= i < |ms| :: Survives(ms[i], before, after)
  }

  lemma StoredSurvives(m: Handles, before: map<nat, real>, after: map<nat, real>, x: map<nat, real>)
    requires Stored(m, before, x) && Survives(m, before, after)
    ensures Stored(m, after, x)
  {
  }

  lemma AllStoredSurvives(ms: seq<Handles>, before: map<nat, real>, after: map<nat, real>, x: map<nat, real>)
    requires AllStored(ms, before, x) && AllSurvive(ms, before, after)
    ensures AllStored(ms, after, x)
  {
    hide Stored, Survives;
    forall i | 0 <= i < |ms| ensures Stored(ms[i], after, x) { StoredSurvives(ms[i], before, after, x); }
  }

  lemma GradsOnlySurvives(owner: map<nat, Owner>, t: Tables, before: map<nat, real>, owner': map<nat, Owner>, after: map<nat, real>)
    requires Tidy(owner, t) && GradsOnly(owner, before, owner', after)
    ensures Survives(t.values, before, after)
    ensures AllSurvive(t.snapshots, before, after) && AllSurvive(t.buffers, before, after) && AllSurvive(t.gradients, before, after)
  {
    hide Tidy;
    Entries(owner, t);
  }

  lemma StateKeptSurvives(owner: map<nat, Owner>, t: Tables, before: map<nat, real>, owner': map<nat, Owner>, after: map<nat, real>)
    requires Tidy(owner, t) && StateKept(owner, before, owner', after)
    ensures AllSurvive(t.snapshots, before, after) && AllSurvive(t.buffers, before, after) && AllSurvive(t.gradients, before, after)
  {
    hide Tidy;
    Entries(owner, t);
  }

  lemma GrewNothing(x: map<nat, real>)
    ensures Grew(x, x)
  {
  }

  lemma GrewOn(a: map<nat, real>, b: map<nat, real>, c: map<nat, real>)
    requires Grew(a, b) && Grew(b, c)
    ensures Grew(a, c)
  {
  }

  lemma GrewStored(m: Handles, before: map<nat, real>, after: map<nat, real>, x: map<nat, real>)
    requires Stored(m, before, x) && Grew(before, after)
    ensures Stored(m, after, x)
  {
  }

  lemma GrewOne(m: Handles, before: map<nat, real>, after: map<nat, real>)
    requires Grew(before, after)
    ensures Survives(m, before, after)
  {
  }

  lemma GrewSurvives(t: Tables, before: map<nat, real>, after: map<nat, real>)
    requires Grew(before, after)
    ensures AllSurvive(t.snapshots, before, after) && AllSurvive(t.buffers, before, after) && AllSurvive(t.gradients, before, after)
  {
  }

  function PlaceholdersBelow(g: Graph, n: nat): set<nat>
    requires n <= |g.nodes|
  {
    set x | 0 <= x < n && g.nodes[x].Placeholder?
  }

  lemma PlaceholdersEnds(g: Graph)
    ensures PlaceholdersBelow(g, 0) == {} && PlaceholdersBelow(g, |g.nodes|) == Placeholders(g)
  {
  }

  lemma PlaceholdersStep(g: Graph, n: nat)
    requires n < |g.nodes|
    ensures PlaceholdersBelow(g, n + 1) == PlaceholdersBelow(g, n) + if g.nodes[n].Placeholder? then {n} else {}
    ensures n !in PlaceholdersBelow(g, n) && (g.nodes[n].Placeholder? ==> n in Placeholders(g))
  {
  }

  /** Nothing but pending gradients was changed or freed. */
  ghost predicate GradsOnly(owner: map<nat, Owner>, before: map<nat, real>, owner': map<nat, Owner>, after: map<nat, real>) {
    forall h | h in owner && !owner[h].PendingGrad? && h in before ::
      h in owner' && owner'[h] == owner[h] && h in after && after[h] == before[h]
  }

  /** Nothing a record holds, buffer or parameter gradient, was changed or freed. */
  ghost predicate RecordsKept(owner: map<nat, Owner>, before: map<nat, real>, owner': map<nat, Owner>, after: map<nat, real>) {
    forall h | h in owner && (owner[h].BufferOf? || owner[h].ParamGrad?) && h in before ::
      h in owner' && owner'[h] == owner[h] && h in after && after[h] == before[h]
  }

  /** The gradient accumulated so far for `v`. */
  ghost function GradOf(pending: Gathered, tensors: map<nat, real>, v: nat): Grad {
    if v in pending && pending[v].Some? && pending[v].value in tensors then Some(tensors[pending[v].value]) else None
  }

  /** Parameter `p` has exactly the gradient `x` recorded: no handle stands for "no gradient". */
  ghost predicate Recorded(m: Handles, tensors: map<nat, real>, p: nat, x: Grad) {
    if x.Some? then p in m && m[p] in tensors && tensors[m[p]] == x.value else p !in m
  }

  /** The results, the RNG and the records' buffers are those of the uncut model's trace from `w0`. */
  ghost predicate Evaluated(g: Graph, ops: Operators, w0: World, es: map<nat, Effect>, ls: map<nat, Linear>, result: seq<real>, rng: int,
                            buffers: seq<Handles>, tensors: map<nat, real>)
  {
    && Trace.IsTrace(g, ops, w0, |g.nodes|, es, ls)
    && |result| == |g.output| && (forall k | 0 <= k < |result| :: Trace.IsOperand(w0, es, g.output[k], result[k]))
    && Trace.IsRng(w0, es, |g.nodes|, rng)
    && forall i, b | 0 <= i < |buffers| && b in buffers[i] ::
         buffers[i][b] in tensors && Trace.IsBuffer(g, w0, es, |g.nodes|, b, tensors[buffers[i][b]])
  }

  /**
   Parameter `k` of call `c` has a gradient recorded exactly when it is to be trained and both the
   derivative for its place and the call's own gradient are there; it is their product.
   */
  ghost predicate PlaceRecorded(g: Graph, trainable: set<nat>, ls: map<nat, Linear>, grad: seq<Grad>, m: Handles, tensors: map<nat, real>,
                                c: nat, k: nat)
    requires c < |g.nodes| == |grad| && g.nodes[c].Call? && k < |g.nodes[c].params|
  {
    var p := g.nodes[c].params[k];
    && (p in m <==> p in trainable && c in ls && k < |ls[c].params| && ls[c].params[k].Some? && grad[c].Some?)
    && (p in m ==> m[p] in tensors && tensors[m[p]] == ls[c].params[k].value * grad[c].value)
  }

  /** That holds of the groups from `from` on, and the others have nothing recorded. */
  ghost predicate PlacesRecorded(g: Graph, cut: seq<seq<nat>>, trainable: set<nat>, ls: map<nat, Linear>, grad: seq<Grad>,
                                 gradients: seq<Handles>, tensors: map<nat, real>, from: nat)
    requires CutCalls(g, cut) && |grad| == |g.nodes|
  {
    && |gradients| == |cut| && (forall i | 0 <= i < |cut| && i < from :: gradients[i] == map[])
    && forall i, j, k | from <= i < |cut| && 0 <= j < |cut[i]| && 0 <= k < |g.nodes[cut[i][j]].params| ::
         PlaceRecorded(g, trainable, ls, grad, gradients[i], tensors, cut[i][j], k)
  }

  /** One training step by the trace and the chain rule: its results, what it leaves, and the gradients of the groups from `from` on. */
  ghost predicate Trained(g: Graph, ops: Operators, cut: seq<seq<nat>>, trainable: set<nat>, w0: World, outs: seq<Grad>,
                          es: map<nat, Effect>, ls: map<nat, Linear>, grad: seq<Grad>, result: seq<real>, rng: int,
                          buffers: seq<Handles>, gradients: seq<Handles>, tensors: map<nat, real>, from: nat)
    requires CutCalls(g, cut) && |outs| == |g.output|
  {
    && Evaluated(g, ops, w0, es, ls, result, rng, buffers, tensors)
    && Trace.ChainRule(g, ls, outs, grad) && PlacesRecorded(g, cut, trainable, ls, grad, gradients, tensors, from)
  }

  class Runtime {
    const g: Graph
    const ops: Operators
    const cut: seq<seq<nat>>
    const trainable: set<nat>
    const store: RamStore
    var buffers: seq<Handles>
    var gradients: seq<Handles>
    var rng: int

    /** Ownership of every group's buffers moves into the store; no gradient exists yet. */
    constructor (g: Graph, ops: Operators, cut: seq<seq<nat>>, trainable: set<nat>, store: RamStore,
                 initial: map<nat, real>, rng: int)
      requires WellFormed(g) && IsCut(g, cut) && CutCalls(g, cut) && BuffersApart(g, cut)
      requires store.Valid() && store.tensors == map[]
      modifies store
      ensures this.g == g && this.ops == ops && this.cut == cut && this.trainable == trainable
      ensures this.store == store && this.rng == rng
      ensures Valid() && Neat(Tape(map[], [], []), map[]) && BuffersHold(initial)
      ensures forall i | 0 <= i < |cut| :: gradients[i] == map[]
    {
      this.g, this.ops, this.cut, this.trainable, this.store, this.rng := g, ops, cut, trainable, store, rng;
      this.buffers, this.gradients := [], [];
      new;
      ghost var none := Tape(map[], [], []);
      while |buffers| < |cut|
        invariant this.rng == rng && |buffers| == |gradients| <= |cut|
        invariant forall i | 0 <= i < |buffers| :: buffers[i].Keys == BuffersOf(g, cut[i]) && gradients[i] == map[]
        invariant Neat(none, map[]) && BuffersHold(initial)
        decreases |cut| - |buffers|
      {
        AddRecord(BuffersOf(g, cut[|buffers|]), initial);
      }
    }

    /** The next group's record: its buffers are uploaded one by one. */
    method AddRecord(names: set<nat>, initial: map<nat, real>)
      requires |buffers| == |gradients| && Neat(Tape(map[], [], []), map[]) && BuffersHold(initial)
      modifies this`buffers, this`gradients, store
      ensures |buffers| == |gradients| == |old(buffers)| + 1
      ensures forall i | 0 <= i < |old(buffers)| :: buffers[i] == old(buffers[i]) && gradients[i] == old(gradients[i])
      ensures buffers[|old(buffers)|].Keys == names && gradients[|old(buffers)|] == map[]
      ensures Neat(Tape(map[], [], []), map[]) && BuffersHold(initial)
    {
      ghost var none := Tape(map[], [], []);
      OpenRow(store.owner, TablesOf(none, map[]));
      var i := |buffers|;
      buffers, gradients := buffers + [map[]], gradients + [map[]];
      var todo := names;
      while todo != {}
        invariant |buffers| == i + 1 && buffers[..i] == old(buffers) && gradients == old(gradients) + [map[]]
        invariant todo <= names && buffers[i].Keys == names - todo
        invariant Neat(none, map[]) && BuffersHold(initial)
      {
        var b :| b in todo;
        AddBuffer(i, b, Look(initial, b), initial);
        todo := todo - {b};
      }
    }

    method AddBuffer(i: nat, b: nat, x: real, ghost initial: map<nat, real>)
      requires i < |buffers| && b !in buffers[i] && x == Look(initial, b)
      requires Neat(Tape(map[], [], []), map[]) && BuffersHold(initial)
      modifies this`buffers, store
      ensures |buffers| == |old(buffers)| && buffers[..i] == old(buffers)[..i]
      ensures buffers[i].Keys == old(buffers)[i].Keys + {b}
      ensures Neat(Tape(map[], [], []), map[]) && BuffersHold(initial)
    {
      hide Tidy;
      ghost var none := Tape(map[], [], []);
      ghost var t, owner := TablesOf(none, map[]), store.owner;
      Entries(owner, t);
      var h := store.Offload(x, BufferOf(i, b));
      buffers := buffers[i := Put(buffers[i], b, h)];
      Insert(owner, t, TablesOf(none, map[]), BufferOf(i, b), h);
    }

    // ---- Invariants ----

    ghost predicate Valid()
      reads this, store
    {
      && WellFormed(g) && IsCut(g, cut) && CutCalls(g, cut) && BuffersApart(g, cut)
      && store.Valid()
      && |buffers| == |gradients| == |cut|
      && forall i | 0 <= i < |cut| :: buffers[i].Keys == BuffersOf(g, cut[i])
    }

    ghost function TablesOf(tape: Tape, pending: Gathered): Tables
      reads this
    {
      Tables(tape.values, tape.snapshots, pending, buffers, gradients)
    }

    /** The live handles are exactly the table entries. */
    ghost predicate Neat(tape: Tape, pending: Gathered)
      reads this, store
    {
      store.Valid() && Tidy(store.owner, TablesOf(tape, pending))
    }

    ghost predicate Holds(m: Handles, x: map<nat, real>)
      reads store
    {
      Stored(m, store.tensors, x)
    }

    ghost predicate BuffersHold(x: map<nat, real>)
      reads this, store
    {
      AllStored(buffers, store.tensors, x)
    }

    /** The world of the uncut model just before group `i`. */
    ghost function WorldAt(w0: World, i: nat): World
      requires IsCut(g, cut) && i <= |cut|
    {
      WorldAtCalls(i);
      Run(g, ops, Flatten(cut[..i]), w0)
    }

    lemma WorldAtCalls(i: nat)
      requires IsCut(g, cut) && i <= |cut|
      ensures AllCalls(g, Flatten(cut[..i]))
    {
      if i < |cut| {
        CutOrder(g, cut, i);
      } else {
        CallsAreCalls(g);
        assert cut[..i] == cut;
      }
    }

    lemma WorldStep(w0: World, i: nat)
      requires IsCut(g, cut) && i < |cut|
      ensures AllCalls(g, cut[i])
      ensures WorldAt(w0, i + 1) == Run(g, ops, cut[i], WorldAt(w0, i))
    {
      hide Run;
      CutOrder(g, cut, i);
      FlattenPrefix(cut, i);
      RunAppend(g, ops, Flatten(cut[..i]), cut[i], w0);
    }

    // ---- Table operations ----

    method SaveValue(v: nat, x: real, tape: Tape, ghost pending: Gathered) returns (tape': Tape)
      requires Neat(tape, pending) && v !in tape.values
      modifies store
      ensures Neat(tape', pending)
      ensures v in tape'.values && tape'.values[v] !in old(store.tensors)
      ensures tape' == tape.(values := Put(tape.values, v, tape'.values[v]))
      ensures store.tensors == old(store.tensors)[tape'.values[v] := x]
    {
      hide Tidy;
      var h := store.Offload(x, ValueOf(v));
      tape' := tape.(values := Put(tape.values, v, h));
      Insert(old(store.owner), TablesOf(tape, pending), TablesOf(tape', pending), ValueOf(v), h);
    }

    method DropValue(v: nat, tape: Tape, ghost pending: Gathered) returns (tape': Tape)
      requires Neat(tape, pending) && v in tape.values
      modifies store
      ensures Neat(tape', pending)
      ensures tape' == tape.(values := tape.values - {v})
      ensures store.tensors == old(store.tensors) - {tape.values[v]}
      ensures StateKept(old(store.owner), old(store.tensors), store.owner, store.tensors)
      ensures RecordsKept(old(store.owner), old(store.tensors), store.owner, store.tensors)
    {
      hide Tidy;
      Entries(store.owner, TablesOf(tape, pending));
      store.Free(tape.values[v]);
      tape' := tape.(values := tape.values - {v});
      Remove(old(store.owner), TablesOf(tape, pending), TablesOf(tape', pending), ValueOf(v));
    }

    /** Replacement first, then release of the old handle. */
    method ReplaceBuffer(i: nat, b: nat, x: real, ghost tape: Tape, ghost pending: Gathered)
      requires Neat(tape, pending) && i < |buffers| && b in buffers[i]
      modifies this`buffers, store
      ensures Neat(tape, pending)
      ensures |buffers| == |old(buffers)| && b in buffers[i] && buffers[i][b] !in old(store.tensors)
      ensures buffers == old(buffers)[i := Put(old(buffers)[i], b, buffers[i][b])]
      ensures store.tensors == old(store.tensors)[buffers[i][b] := x] - {old(buffers[i][b])}
      ensures TapeKept(old(store.owner), old(store.tensors), store.owner, store.tensors)
      ensures forall j, b' | 0 <= j < |buffers| && b' in buffers[j] && (j != i || b' != b) ::
                && old(b' in buffers[j])
                && buffers[j][b'] == old(buffers[j][b'])
                && (old(buffers[j][b'] in store.tensors) ==>
                      buffers[j][b'] in store.tensors && store.tensors[buffers[j][b']] == old(store.tensors[buffers[j][b']]))
    {
      hide Tidy;
      ghost var t := TablesOf(tape, pending);
      Entries(store.owner, t);
      var replacement := store.Offload(x, BufferOf(i, b));
      store.Free(buffers[i][b]);
      buffers := buffers[i := Put(buffers[i], b, replacement)];
      Replace(old(store.owner), t, TablesOf(tape, pending), BufferOf(i, b), replacement);
    }

    method SaveSnapshot(b: nat, x: real, tape: Tape, ghost pending: Gathered) returns (tape': Tape)
      requires Neat(tape, pending) && |tape.snapshots| > 0
      requires b !in tape.snapshots[|tape.snapshots| - 1]
      modifies store
      ensures Neat(tape', pending)
      ensures |tape'.snapshots| == |tape.snapshots|
      ensures b in tape'.snapshots[|tape.snapshots| - 1]
      ensures var k := |tape.snapshots| - 1; var h := tape'.snapshots[k][b];
              && h !in old(store.tensors) && store.tensors == old(store.tensors)[h := x]
              && tape' == tape.(snapshots := tape.snapshots[k := Put(tape.snapshots[k], b, h)])
    {
      hide Tidy;
      var k := |tape.snapshots| - 1;
      var h := store.Offload(x, SnapshotOf(k, b));
      tape' := tape.(snapshots := tape.snapshots[k := Put(tape.snapshots[k], b, h)]);
      Insert(old(store.owner), TablesOf(tape, pending), TablesOf(tape', pending), SnapshotOf(k, b), h);
    }

    // ---- One group, forwards ----

    function Arguments(names: seq<nat>, values: Handles): (env: map<nat, real>)
      reads store
      requires forall v | v in names :: v in values && values[v] in store.tensors
    {
      map v | v in names :: store.tensors[values[v]]
    }

    /** The group's buffers, with the overlay taking precedence. */
    function State(i: nat, overlay: Handles): (bufs: map<nat, real>)
      reads this, store
      requires i < |buffers|
      requires forall b | b in buffers[i] :: buffers[i][b] in store.tensors
      requires forall b | b in overlay :: overlay[b] in store.tensors
    {
      map b | b in buffers[i] :: if b in overlay then store.tensors[overlay[b]] else store.tensors[buffers[i][b]]
    }

    /** The functional call of one group's module. */
    method Call(ids: seq<nat>, w: World) returns (r: World)
      requires AllCalls(g, ids)
      ensures r == Run(g, ops, ids, w)
    {
      r := w;
      for n := 0 to |ids|
        invariant AllCalls(g, ids[..n]) && r == Run(g, ops, ids[..n], w)
      {
        r := Step(g, ops, ids[n], r);
        assert ids[..n + 1][..n] == ids[..n];
      }
      assert ids[..|ids|] == ids;
    }

    /** A group started from the stored boundary runs as the uncut model does there. */
    lemma GroupAgrees(w0: World, i: nat, local: World)
      requires WellFormed(g) && IsCut(g, cut) && CutCalls(g, cut) && i < |cut|
      requires forall v | v in GroupInputs(g, cut[i]) :: Look(local.env, v) == Look(WorldAt(w0, i).env, v)
      requires forall b | b in BuffersOf(g, cut[i]) :: Look(local.bufs, b) == Look(WorldAt(w0, i).bufs, b)
      requires local.rng == WorldAt(w0, i).rng
      ensures Agree(g, cut[i], local, WorldAt(w0, i))
      ensures Run(g, ops, cut[i], local).rng == WorldAt(w0, i + 1).rng
      ensures forall c | c in cut[i] :: Look(Run(g, ops, cut[i], local).env, c) == Look(WorldAt(w0, i + 1).env, c)
      ensures forall b | b in BuffersOf(g, cut[i]) ::
                Look(Run(g, ops, cut[i], local).bufs, b) == Look(WorldAt(w0, i + 1).bufs, b)
    {
      hide Run;
      var ids, w := cut[i], WorldAt(w0, i);
      CutOrder(g, cut, i);
      forall j, a | 0 <= j < |ids| && a in g.nodes[ids[j]].args
        ensures a in ids[..j] || Look(local.env, a) == Look(w.env, a)
      {
        if a in ids { ArgsEarlier(g, ids, j, a); } else { assert a in GroupInputs(g, ids); }
      }
      forall c | c in ids && g.nodes[c].buffer.Some?
        ensures Look(local.bufs, g.nodes[c].buffer.value) == Look(w.bufs, g.nodes[c].buffer.value)
      {
        var j :| 0 <= j < |ids| && ids[j] == c;
        assert g.nodes[c].buffer.value in BuffersOf(g, ids);
      }
      RunAgree(g, ops, ids, local, w);
      WorldStep(w0, i);
    }

    /** A group leaves earlier values alone, and every buffer that is not its own BatchNorm's. */
    lemma GroupFrame(w0: World, i: nat)
      requires WellFormed(g) && IsCut(g, cut) && CutCalls(g, cut) && i < |cut|
      ensures forall v | v !in cut[i] :: Look(WorldAt(w0, i + 1).env, v) == Look(WorldAt(w0, i).env, v)
      ensures forall b | b !in MutableBuffers(g, cut[i]) :: Look(WorldAt(w0, i + 1).bufs, b) == Look(WorldAt(w0, i).bufs, b)
    {
      hide Run;
      WorldStep(w0, i);
      RunFrame(g, ops, cut[i], WorldAt(w0, i));
      forall b | b !in MutableBuffers(g, cut[i])
        ensures Look(WorldAt(w0, i + 1).bufs, b) == Look(WorldAt(w0, i).bufs, b)
      {
        forall c | c in cut[i] ensures !Writes(g.nodes[c], b) {
          var j :| 0 <= j < |cut[i]| && cut[i][j] == c;
        }
      }
    }

    // ---- Forward execution ----

    /** Before group `i` the tape holds `v`: visible there and, in inference, still to be read. */
    predicate Kept(v: nat, i: nat, save: bool)
      requires CutCalls(g, cut)
    {
      Boundary(g, cut, v, i) && (save || Pending(g, cut, v, i) != {} || Pending(g, cut, v, 0) == {})
    }

    ghost predicate Snapshots(tape: Tape, w0: World, n: nat, save: bool)
      requires IsCut(g, cut) && CutCalls(g, cut) && n <= |cut|
      reads store
    {
      Snapped(tape.snapshots, tape.rngs, store.tensors, w0, n, save)
    }

    /** One snapshot and one RNG state per executed group, taken just before it ran. */
    ghost predicate Snapped(snapshots: seq<Handles>, rngs: seq<int>, tensors: map<nat, real>, w0: World, n: nat, save: bool)
      requires IsCut(g, cut) && CutCalls(g, cut) && n <= |cut|
    {
      && |snapshots| == |rngs| == n
      && (forall j | 0 <= j < n :: rngs[j] == WorldAt(w0, j).rng)
      && (forall j | 0 <= j < n :: Stored(snapshots[j], tensors, WorldAt(w0, j).bufs))
      && (forall j | 0 <= j < n :: snapshots[j].Keys == if save then MutableBuffers(g, cut[j]) else {})
    }

    /** The recorded liveness of `v` before group `i`. */
    predicate LiveIs(value: GraphValue, v: nat, i: nat)
      requires CutCalls(g, cut) && i <= |cut| + 1
    {
      value == GraphValue(Consumers(g, cut, v, |cut| + 1), |Pending(g, cut, v, i)|, NextUse(g, cut, v, i))
    }

    ghost predicate LiveAt(live: seq<GraphValue>, i: nat)
      requires CutCalls(g, cut) && i <= |cut| + 1
    {
      |live| == |g.nodes| && forall v | 0 <= v < |live| :: LiveIs(live[v], v, i)
    }

    /** What holds between groups of a forward pass. */
    ghost predicate Between(tape: Tape, live: seq<GraphValue>, w0: World, i: nat, save: bool)
      requires IsCut(g, cut) && CutCalls(g, cut) && i <= |cut|
      reads this, store
    {
      && Valid() && Neat(tape, map[])
      && rng == WorldAt(w0, i).rng && BuffersHold(WorldAt(w0, i).bufs)
      && Holds(tape.values, WorldAt(w0, i).env)
      && (forall v: nat :: v in tape.values <==> Kept(v, i, save))
      && Snapshots(tape, w0, i, save)
      && LiveAt(live, i)
    }

    /** Copies of the group's BatchNorm buffers as they are before it runs (training only). */
    method TakeSnapshot(i: nat, tape: Tape, ghost w0: World, save: bool) returns (tape': Tape)
      requires Valid() && i < |cut| && Neat(tape, map[]) && Snapshots(tape, w0, i, save)
      requires rng == WorldAt(w0, i).rng && BuffersHold(WorldAt(w0, i).bufs)
      modifies store
      ensures Neat(tape', map[]) && Snapshots(tape', w0, i + 1, save) && tape'.values == tape.values
      ensures Grew(old(store.tensors), store.tensors)
    {
      hide Run, Tidy, IsCut, WellFormed, Flatten, BuffersApart;
      OpenSnapshot(store.owner, TablesOf(tape, map[]));
      tape' := tape.(snapshots := tape.snapshots + [map[]], rngs := tape.rngs + [rng]);
      if save {
        tape' := FillSnapshot(i, tape', WorldAt(w0, i).bufs);
      }
      forall j | 0 <= j < i ensures tape'.snapshots[j] == tape.snapshots[j] {
        assert tape'.snapshots[..i][j] == tape'.snapshots[j];
      }
    }

    method FillSnapshot(i: nat, tape: Tape, ghost bufs: map<nat, real>) returns (tape': Tape)
      requires CutCalls(g, cut) && i < |cut| == |buffers| && Neat(tape, map[])
      requires |tape.snapshots| == i + 1 && tape.snapshots[i] == map[]
      requires buffers[i].Keys == BuffersOf(g, cut[i]) && Holds(buffers[i], bufs)
      modifies store
      ensures Neat(tape', map[]) && tape'.values == tape.values && tape'.rngs == tape.rngs
      ensures |tape'.snapshots| == i + 1 && tape'.snapshots[..i] == tape.snapshots[..i]
      ensures tape'.snapshots[i].Keys == MutableBuffers(g, cut[i]) && Holds(tape'.snapshots[i], bufs)
      ensures Grew(old(store.tensors), store.tensors)
    {
      hide Tidy, Neat, MutableBuffers, Grew;
      GrewNothing(store.tensors);
      var todo := MutableBuffers(g, cut[i]);
      tape' := tape;
      while todo != {}
        invariant Neat(tape', map[]) && Grew(old(store.tensors), store.tensors)
        invariant tape'.values == tape.values && tape'.rngs == tape.rngs
        invariant |tape'.snapshots| == i + 1 && tape'.snapshots[..i] == tape.snapshots[..i]
        invariant todo <= MutableBuffers(g, cut[i]) && tape'.snapshots[i].Keys == MutableBuffers(g, cut[i]) - todo
        invariant Holds(buffers[i], bufs) && Holds(tape'.snapshots[i], bufs)
      {
        var b :| b in todo;
        MutableIsRead(i, b);
        ghost var before := store.tensors;
        tape' := SaveSnapshot(b, store.tensors[buffers[i][b]], tape', map[]);
        GrewOn(old(store.tensors), before, store.tensors);
        GrewStored(buffers[i], before, store.tensors, bufs);
        todo := todo - {b};
      }
    }

    /** Mid-commit: the buffers named in `todo` still have to be replaced. */
    ghost predicate Renewed(i: nat, todo: set<nat>, w: map<nat, real>)
      reads this, store
    {
      && i < |buffers|
      && (forall j | 0 <= j < |buffers| && j != i :: Holds(buffers[j], w))
      && (forall b | b in buffers[i] :: buffers[i][b] in store.tensors)
      && (forall b | b in buffers[i] && b !in todo :: store.tensors[buffers[i][b]] == Look(w, b))
    }

    method CommitBuffer(i: nat, b: nat, x: real, ghost tape: Tape, ghost todo: set<nat>, ghost w: map<nat, real>)
      requires Valid() && i < |cut| && Neat(tape, map[]) && Renewed(i, todo, w)
      requires b in buffers[i] && x == Look(w, b)
      modifies this`buffers, store
      ensures Valid() && Neat(tape, map[]) && Renewed(i, todo - {b}, w)
      ensures TapeKept(old(store.owner), old(store.tensors), store.owner, store.tensors)
    {
      hide Tidy, IsCut, WellFormed, BuffersOf, BuffersApart, CutCalls, TapeKept;
      ReplaceBuffer(i, b, x, tape, map[]);
    }

    /** The group's BatchNorm buffers take the values the functional call left in `state`. */
    method CommitBuffers(i: nat, state: map<nat, real>, ghost tape: Tape, ghost w: map<nat, real>, ghost w': map<nat, real>)
      requires Valid() && i < |cut| && Neat(tape, map[]) && BuffersHold(w)
      requires forall b | b in BuffersOf(g, cut[i]) :: Look(state, b) == Look(w', b)
      requires forall b | b !in MutableBuffers(g, cut[i]) :: Look(w', b) == Look(w, b)
      modifies this`buffers, store
      ensures Valid() && Neat(tape, map[]) && BuffersHold(w')
      ensures TapeKept(old(store.owner), old(store.tensors), store.owner, store.tensors)
    {
      var todo := MutableBuffers(g, cut[i]);
      forall j | 0 <= j < |cut| && j != i ensures Holds(buffers[j], w') {
        assert MutableBuffers(g, cut[i]) !! BuffersOf(g, cut[j]);
      }
      while todo != {}
        invariant Valid() && Neat(tape, map[]) && todo <= MutableBuffers(g, cut[i]) && Renewed(i, todo, w')
        invariant TapeKept(old(store.owner), old(store.tensors), store.owner, store.tensors)
      {
        hide Tidy, IsCut, WellFormed, Flatten, Renewed, MutableBuffers, BuffersOf, BuffersApart;
        var b :| b in todo;
        MutableIsRead(i, b);
        CommitBuffer(i, b, Look(state, b), tape, todo, w');
        todo := todo - {b};
      }
    }

    /** A boundary value becomes a tape entry. */
    method Save(v: nat, x: real, tape: Tape, ghost w: map<nat, real>) returns (tape': Tape)
      requires Neat(tape, map[]) && v !in tape.values && Holds(tape.values, w) && x == Look(w, v)
      modifies store
      ensures Neat(tape', map[]) && Holds(tape'.values, w) && Grew(old(store.tensors), store.tensors)
      ensures tape'.snapshots == tape.snapshots && tape'.rngs == tape.rngs
      ensures tape'.values.Keys == tape.values.Keys + {v}
    {
      hide Tidy;
      tape' := SaveValue(v, x, tape, map[]);
    }

    /** The group's visible results become tape entries. */
    method SaveOutputs(outputs: seq<nat>, env: map<nat, real>, tape: Tape, ghost w: map<nat, real>) returns (tape': Tape)
      requires NoDuplicates(outputs) && Neat(tape, map[]) && Holds(tape.values, w)
      requires forall v | v in outputs :: v !in tape.values && Look(env, v) == Look(w, v)
      modifies store
      ensures Neat(tape', map[]) && Holds(tape'.values, w) && Grew(old(store.tensors), store.tensors)
      ensures tape'.snapshots == tape.snapshots && tape'.rngs == tape.rngs
      ensures tape'.values.Keys == tape.values.Keys + (set v | v in outputs)
    {
      hide Tidy, Neat, Holds;
      tape' := tape;
      for k := 0 to |outputs|
        invariant Neat(tape', map[]) && Holds(tape'.values, w) && Grew(old(store.tensors), store.tensors)
        invariant tape'.snapshots == tape.snapshots && tape'.rngs == tape.rngs
        invariant tape'.values.Keys == tape.values.Keys + (set v | v in outputs[..k])
      {
        var v := outputs[k];
        assert v in outputs && v !in outputs[..k];
        tape' := Save(v, Look(env, v), tape', w);
        assert outputs[..k + 1] == outputs[..k] + [v];
      }
      assert outputs[..|outputs|] == outputs;
    }

    /** A dead boundary value is freed. */
    method Drop(v: nat, tape: Tape, ghost pending: Gathered, ghost w: map<nat, real>) returns (tape': Tape)
      requires Neat(tape, pending) && v in tape.values && Holds(tape.values, w)
      modifies store
      ensures Neat(tape', pending) && Holds(tape'.values, w)
      ensures tape' == tape.(values := tape.values - {v})
      ensures StateKept(old(store.owner), old(store.tensors), store.owner, store.tensors)
    {
      hide Tidy, StateKept;
      Entries(store.owner, TablesOf(tape, pending));
      tape' := DropValue(v, tape, pending);
    }

    /** Group `i` has read `v`: its reader count drops and, in inference, a dead value is freed. */
    method Release(i: nat, v: nat, tape: Tape, value: GraphValue, save: bool, ghost w: map<nat, real>)
      returns (tape': Tape, value': GraphValue)
      requires CutCalls(g, cut) && i < |cut| && Neat(tape, map[]) && Holds(tape.values, w)
      requires v in GroupInputs(g, cut[i]) && v in tape.values && LiveIs(value, v, i)
      modifies store
      ensures Neat(tape', map[]) && Holds(tape'.values, w)
      ensures LiveIs(value', v, i + 1)
      ensures tape' == if save || Pending(g, cut, v, i + 1) != {} then tape else tape.(values := tape.values - {v})
      ensures StateKept(old(store.owner), old(store.tensors), store.owner, store.tensors)
    {
      hide Tidy, Neat, Holds, Pending, GroupInputs, NextUse, FirstAbove, Consumers;
      PendingStep(g, cut, v, i);
      FirstAboveIsNextUse(g, cut, v, i);
      tape', value' := tape, value;
      value' := value'.(remaining := value'.remaining - 1, nextUse := FirstAbove(value'.consumers, i));
      if !save && value'.remaining == 0 {
        tape' := Drop(v, tape', map[], w);
      }
    }

    method ReleaseInputs(i: nat, tape: Tape, live: seq<GraphValue>, save: bool, ghost w: map<nat, real>)
      returns (tape': Tape, live': seq<GraphValue>)
      requires CutCalls(g, cut) && i < |cut| && Neat(tape, map[]) && Holds(tape.values, w)
      requires LiveAt(live, i)
      requires forall v | v in GroupInputs(g, cut[i]) :: v < |live| && v in tape.values
      modifies store
      ensures Neat(tape', map[]) && Holds(tape'.values, w)
      ensures tape'.snapshots == tape.snapshots && tape'.rngs == tape.rngs
      ensures tape'.values.Keys == tape.values.Keys - Dead(GroupInputs(g, cut[i]), i, save)
      ensures LiveAt(live', i + 1)
      ensures StateKept(old(store.owner), old(store.tensors), store.owner, store.tensors)
    {
      hide Tidy, Neat, Holds, Pending, GroupInputs, NextUse, Consumers, LiveIs;
      var inputs := GroupInputs(g, cut[i]);
      tape', live' := tape, live;
      for k := 0 to |inputs|
        invariant Neat(tape', map[]) && Holds(tape'.values, w)
        invariant tape'.snapshots == tape.snapshots && tape'.rngs == tape.rngs
        invariant tape'.values.Keys == tape.values.Keys - Dead(inputs[..k], i, save)
        invariant |live'| == |live|
        invariant forall v | 0 <= v < |live| && v !in inputs[..k] :: live'[v] == live[v]
        invariant forall v | 0 <= v < |live| && v in inputs[..k] :: LiveIs(live'[v], v, i + 1)
        invariant StateKept(old(store.owner), old(store.tensors), store.owner, store.tensors)
      {
        var v := inputs[k];
        assert v in inputs && v !in inputs[..k];
        var value;
        tape', value := Release(i, v, tape', live'[v], save, w);
        live' := live'[v := value];
        assert inputs[..k + 1] == inputs[..k] + [v];
      }
      assert inputs[..|inputs|] == inputs;
      LiveStep(i, live, live');
    }

    /** Passing group `i` changes the liveness of nothing but its inputs. */
    lemma LiveStep(i: nat, live: seq<GraphValue>, live': seq<GraphValue>)
      requires CutCalls(g, cut) && i < |cut| && LiveAt(live, i) && |live'| == |live|
      requires forall v | 0 <= v < |live| && v !in GroupInputs(g, cut[i]) :: live'[v] == live[v]
      requires forall v | 0 <= v < |live| && v in GroupInputs(g, cut[i]) :: LiveIs(live'[v], v, i + 1)
      ensures LiveAt(live', i + 1)
    {
      forall v | 0 <= v < |live| ensures LiveIs(live'[v], v, i + 1) {
        hide Pending, NextUse, GroupInputs, Consumers;
        PendingStep(g, cut, v, i);
      }
    }

    /** The values among `read` that nobody reads after group `i`; training keeps them all. */
    function Dead(read: seq<nat>, i: nat, save: bool): set<nat>
      requires CutCalls(g, cut)
    {
      set v | v in read && !save && Pending(g, cut, v, i + 1) == {}
    }

    /** Recomputation of group `i` from stored boundary values, buffers and RNG. */
    method RunGroup(i: nat, tape: Tape, overlay: Handles, seed: int, ghost w0: World) returns (local: World)
      requires Valid() && i < |cut|
      requires seed == WorldAt(w0, i).rng
      requires forall v | v in GroupInputs(g, cut[i]) :: v in tape.values && tape.values[v] in store.tensors
      requires forall v | v in GroupInputs(g, cut[i]) :: store.tensors[tape.values[v]] == Look(WorldAt(w0, i).env, v)
      requires Holds(overlay, WorldAt(w0, i).bufs)
      requires forall b | b in buffers[i] :: buffers[i][b] in store.tensors
      requires forall b | b in buffers[i] && b !in overlay :: store.tensors[buffers[i][b]] == Look(WorldAt(w0, i).bufs, b)
      ensures local.rng == seed
      ensures Agree(g, cut[i], local, WorldAt(w0, i))
      ensures Run(g, ops, cut[i], local).rng == WorldAt(w0, i + 1).rng
      ensures forall c | c in cut[i] :: Look(Run(g, ops, cut[i], local).env, c) == Look(WorldAt(w0, i + 1).env, c)
      ensures forall b | b in BuffersOf(g, cut[i]) ::
                Look(Run(g, ops, cut[i], local).bufs, b) == Look(WorldAt(w0, i + 1).bufs, b)
    {
      hide Run, Agree, GroupInputs, BuffersOf, BuffersApart;
      local := World(Arguments(GroupInputs(g, cut[i]), tape.values), State(i, overlay), seed);
      GroupAgrees(w0, i, local);
    }

    /** Committing buffers leaves the tape as it was. */
    lemma CommitKeeps(t: Tables, rngs: seq<int>, owner: map<nat, Owner>, before: map<nat, real>, owner': map<nat, Owner>,
                      after: map<nat, real>, w0: World, n: nat, save: bool, env: map<nat, real>)
      requires IsCut(g, cut) && CutCalls(g, cut) && n <= |cut|
      requires Tidy(owner, t) && Snapped(t.snapshots, rngs, before, w0, n, save) && Stored(t.values, before, env)
      requires TapeKept(owner, before, owner', after)
      ensures Snapped(t.snapshots, rngs, after, w0, n, save) && Stored(t.values, after, env)
    {
      hide Tidy, Run, IsCut, CutCalls;
      Entries(owner, t);
    }

    /** Releasing boundary values leaves buffers and snapshots as they were. */
    lemma ReleaseKeeps(t: Tables, rngs: seq<int>, owner: map<nat, Owner>, before: map<nat, real>, owner': map<nat, Owner>,
                       after: map<nat, real>, w0: World, n: nat, save: bool, bufs: map<nat, real>)
      requires IsCut(g, cut) && CutCalls(g, cut) && n <= |cut|
      requires Tidy(owner, t) && Snapped(t.snapshots, rngs, before, w0, n, save) && AllStored(t.buffers, before, bufs)
      requires StateKept(owner, before, owner', after)
      ensures Snapped(t.snapshots, rngs, after, w0, n, save) && AllStored(t.buffers, after, bufs)
    {
      hide Tidy, Run, IsCut, CutCalls;
      Entries(owner, t);
    }

    /** New entries leave everything already stored as it was. */
    lemma GrowthKeeps(snapshots: seq<Handles>, rngs: seq<int>, buffers: seq<Handles>, before: map<nat, real>,
                      after: map<nat, real>, w0: World, n: nat, save: bool, bufs: map<nat, real>)
      requires IsCut(g, cut) && CutCalls(g, cut) && n <= |cut|
      requires Snapped(snapshots, rngs, before, w0, n, save) && AllStored(buffers, before, bufs)
      requires Grew(before, after)
      ensures Snapped(snapshots, rngs, after, w0, n, save) && AllStored(buffers, after, bufs)
    {
      hide Run, IsCut, CutCalls;
    }

    /** What the tape holds for group `i` is there when the group needs it, and none of it is the group's own. */
    lemma InputsKept(i: nat, save: bool)
      requires WellFormed(g) && IsCut(g, cut) && CutCalls(g, cut) && i < |cut|
      ensures forall v | v in GroupInputs(g, cut[i]) :: v < |g.nodes| && Kept(v, i, save)
      ensures forall v | v in cut[i] :: !Kept(v, i, save)
    {
      forall v | v in GroupInputs(g, cut[i]) ensures v < |g.nodes| && Kept(v, i, save) {
        InputsAreBoundary(g, cut, i, v);
      }
      forall v | v in cut[i] ensures !Boundary(g, cut, v, i) {
        CutOrder(g, cut, i);
        var k :| 0 <= k < |cut[i]| && cut[i][k] == v;
        forall j | 0 <= j < i ensures v !in GroupOutputs(g, cut[j]) {
          if v in cut[j] { OneGroup(g, cut, i, j, v); }
        }
      }
    }

    /** After group `i` the tape holds what it held, plus the group's outputs, minus what is now dead. */
    lemma KeptStep(i: nat, save: bool, v: nat)
      requires WellFormed(g) && IsCut(g, cut) && CutCalls(g, cut) && i < |cut|
      ensures Kept(v, i + 1, save) <==>
                (Kept(v, i, save) || v in GroupOutputs(g, cut[i])) && v !in Dead(GroupInputs(g, cut[i]), i, save)
    {
      hide IsCut, GroupOutputs, GroupInputs;
      if v in GroupOutputs(g, cut[i]) {
        OutputsAreRead(g, cut, i, v);
        OutputIsMember(i, v);
      }
      if v in GroupInputs(g, cut[i]) {
        InputsAreBoundary(g, cut, i, v);
        InputIsRead(i, v);
      }
      PendingStep(g, cut, v, i);
      assert Boundary(g, cut, v, i + 1) <==> Boundary(g, cut, v, i) || v in GroupOutputs(g, cut[i]) by {
        if v in GroupOutputs(g, cut[i]) { OutputIsMember(i, v); }
      }
    }

    lemma OutputIsMember(i: nat, v: nat)
      requires CutCalls(g, cut) && i < |cut| && v in GroupOutputs(g, cut[i])
      ensures v < |g.nodes| && v in cut[i]
    {
      var k :| 0 <= k < |cut[i]| && cut[i][k] == v;
    }

    lemma InputIsRead(i: nat, v: nat)
      requires CutCalls(g, cut) && i < |cut| && v in GroupInputs(g, cut[i])
      ensures i in Pending(g, cut, v, 0)
    {
      assert ReadsAt(g, cut, v, i);
    }

    lemma MutableIsRead(i: nat, b: nat)
      requires CutCalls(g, cut) && i < |cut| && b in MutableBuffers(g, cut[i])
      ensures b in BuffersOf(g, cut[i])
    {
    }

    /** A group whose run reached `result` publishes it: BatchNorm buffers, then boundary values. */
    method Publish(i: nat, result: World, tape: Tape, save: bool, ghost w0: World) returns (tape': Tape)
      requires Valid() && i < |cut| && Neat(tape, map[]) && Snapshots(tape, w0, i + 1, save)
      requires BuffersHold(WorldAt(w0, i).bufs) && Holds(tape.values, WorldAt(w0, i).env)
      requires forall v: nat :: v in tape.values <==> Kept(v, i, save)
      requires forall c | c in cut[i] :: Look(result.env, c) == Look(WorldAt(w0, i + 1).env, c)
      requires forall b | b in BuffersOf(g, cut[i]) :: Look(result.bufs, b) == Look(WorldAt(w0, i + 1).bufs, b)
      modifies this`buffers, store
      ensures Valid() && Neat(tape', map[]) && Snapshots(tape', w0, i + 1, save)
      ensures BuffersHold(WorldAt(w0, i + 1).bufs) && Holds(tape'.values, WorldAt(w0, i + 1).env)
      ensures forall v: nat :: v in tape'.values <==> Kept(v, i, save) || v in GroupOutputs(g, cut[i])
    {
      hide Run, WellFormed, IsCut, BuffersApart, Kept, Tidy, GroupInputs, BuffersOf, MutableBuffers, TapeKept, Snapped, AllStored;
      ghost var w, w' := WorldAt(w0, i), WorldAt(w0, i + 1);
      GroupFrame(w0, i);
      ghost var t, owner, before := TablesOf(tape, map[]), store.owner, store.tensors;
      CommitBuffers(i, result.bufs, tape, w.bufs, w'.bufs);
      CommitKeeps(t, tape.rngs, owner, before, store.owner, store.tensors, w0, i + 1, save, w.env);
      InputsKept(i, save);
      CutOrder(g, cut, i);
      assert Holds(tape.values, w'.env);
      tape' := SaveGroup(i, result.env, tape, save, w0);
    }

    method SaveGroup(i: nat, env: map<nat, real>, tape: Tape, save: bool, ghost w0: World) returns (tape': Tape)
      requires Valid() && i < |cut| && Neat(tape, map[]) && Snapshots(tape, w0, i + 1, save)
      requires BuffersHold(WorldAt(w0, i + 1).bufs) && Holds(tape.values, WorldAt(w0, i + 1).env)
      requires forall v | v in cut[i] :: v !in tape.values && Look(env, v) == Look(WorldAt(w0, i + 1).env, v)
      modifies store
      ensures Valid() && Neat(tape', map[]) && Snapshots(tape', w0, i + 1, save)
      ensures BuffersHold(WorldAt(w0, i + 1).bufs) && Holds(tape'.values, WorldAt(w0, i + 1).env)
      ensures forall v: nat :: v in tape'.values <==> v in tape.values || v in GroupOutputs(g, cut[i])
    {
      hide Run, WellFormed, IsCut, BuffersApart, Tidy, Stored, Snapped, AllStored, Grew;
      CutOrder(g, cut, i);
      var outputs := GroupOutputs(g, cut[i]);
      ghost var before := store.tensors;
      tape' := SaveOutputs(outputs, env, tape, WorldAt(w0, i + 1).env);
      GrowthKeeps(tape.snapshots, tape.rngs, buffers, before, store.tensors, w0, i + 1, save, WorldAt(w0, i + 1).bufs);
    }

    method ReleaseGroup(i: nat, tape: Tape, live: seq<GraphValue>, save: bool, ghost w0: World)
      returns (tape': Tape, live': seq<GraphValue>)
      requires Valid() && i < |cut| && Neat(tape, map[]) && Snapshots(tape, w0, i + 1, save)
      requires rng == WorldAt(w0, i + 1).rng
      requires BuffersHold(WorldAt(w0, i + 1).bufs) && Holds(tape.values, WorldAt(w0, i + 1).env)
      requires forall v: nat :: v in tape.values <==> Kept(v, i, save) || v in GroupOutputs(g, cut[i])
      requires LiveAt(live, i)
      modifies store
      ensures Between(tape', live', w0, i + 1, save)
    {
      hide Run, WellFormed, IsCut, BuffersApart, Kept, Tidy, Stored, Snapped, AllStored, StateKept, GroupOutputs;
      InputsKept(i, save);
      ghost var t, owner, before := TablesOf(tape, map[]), store.owner, store.tensors;
      tape', live' := ReleaseInputs(i, tape, live, save, WorldAt(w0, i + 1).env);
      ReleaseKeeps(t, tape.rngs, owner, before, store.owner, store.tensors, w0, i + 1, save, WorldAt(w0, i + 1).bufs);
      forall v: nat ensures v in tape'.values <==> Kept(v, i + 1, save) {
        KeptStep(i, save, v);
      }
    }

    /** One iteration of the forward pass. */
    method ExecuteGroup(i: nat, tape: Tape, live: seq<GraphValue>, save: bool, ghost w0: World)
      returns (tape': Tape, live': seq<GraphValue>)
      requires WellFormed(g) && IsCut(g, cut) && CutCalls(g, cut) && i < |cut|
      requires Between(tape, live, w0, i, save)
      modifies this`buffers, this`rng, store
      ensures Between(tape', live', w0, i + 1, save)
    {
      hide Run, WellFormed, IsCut, BuffersApart, Kept, Tidy, GroupInputs, GroupOutputs, LiveAt;
      InputsKept(i, save);
      tape' := TakeSnapshot(i, tape, w0, save);
      var local := RunGroup(i, tape', map[], rng, w0);
      var result := Call(cut[i], local);
      rng := result.rng;
      tape' := Publish(i, result, tape', save, w0);
      tape', live' := ReleaseGroup(i, tape', live, save, w0);
    }

    /** Everything the graph returns is on the tape once the last group has run. */
    lemma OutputsKept(save: bool, v: nat)
      requires WellFormed(g) && IsCut(g, cut) && CutCalls(g, cut) && v in g.output
      ensures Kept(v, |cut|, save)
    {
      assert ReadsAt(g, cut, v, |cut|);
      assert |cut| in Pending(g, cut, v, |cut|);
      if g.nodes[v].Call? {
        var j := GroupOf(g, cut, v);
        assert v in GroupOutputs(g, cut[j]);
      }
    }

    /** Before the first group exactly the placeholders are visible, and all of them are held. */
    lemma KeptAtStart(save: bool, v: nat)
      requires CutCalls(g, cut)
      ensures Kept(v, 0, save) <==> v in Placeholders(g)
    {
    }

    lemma LiveAtStart(live: seq<GraphValue>)
      requires CutCalls(g, cut) && |live| == |g.nodes|
      requires forall v | 0 <= v < |live| :: live[v] == Unread(v)
      ensures LiveAt(live, 0)
    {
      forall v | 0 <= v < |live| ensures LiveIs(live[v], v, 0) {
        ConsumersArePending(g, cut, v);
        FirstConsumerIsNextUse(g, cut, v);
      }
    }

    /** Liveness as recorded before anything has run: all consumers are still to come. */
    function Unread(v: nat): GraphValue
      requires CutCalls(g, cut)
    {
      var xs := Consumers(g, cut, v, |cut| + 1);
      GraphValue(xs, |xs|, if xs == [] then None else Some(xs[0]))
    }

    lemma AllOfCut()
      requires IsCut(g, cut)
      ensures Flatten(cut[..|cut|]) == Calls(g, |g.nodes|)
      ensures AllCalls(g, Calls(g, |g.nodes|))
    {
      assert cut[..|cut|] == cut;
      CallsAreCalls(g);
    }

    /** Inputs enter the tape in node order. */
    method SaveInputs(inputs: map<nat, real>) returns (tape: Tape)
      requires Neat(Tape(map[], [], []), map[]) && inputs.Keys == Placeholders(g)
      modifies store
      ensures Neat(tape, map[]) && Holds(tape.values, inputs) && Grew(old(store.tensors), store.tensors)
      ensures tape.values.Keys == Placeholders(g) && tape.snapshots == [] && tape.rngs == []
    {
      tape := Tape(map[], [], []);
      assert Holds(tape.values, inputs);
      hide Tidy, Neat, Holds, Grew, PlaceholdersBelow, Placeholders;
      PlaceholdersEnds(g);
      for v := 0 to |g.nodes|
        invariant Neat(tape, map[]) && Holds(tape.values, inputs) && Grew(old(store.tensors), store.tensors)
        invariant tape.snapshots == [] && tape.rngs == []
        invariant tape.values.Keys == PlaceholdersBelow(g, v)
      {
        PlaceholdersStep(g, v);
        if g.nodes[v].Placeholder? {
          tape := Save(v, inputs[v], tape, inputs);
        }
      }
    }

    /**
     The forward pass, group by group; `room` tells which groups pass the budget check. Whatever
     the cut, it returns the values of the uncut model, leaves the buffers and the RNG as the
     uncut model does, and before each group the recorded liveness counts the true readers;
     nothing a later group reads is ever freed. A pass that is refused at group `stop` gives
     everything back and leaves the buffers as the groups before `stop` left them.
     */
    method Execute(inputs: map<nat, real>, save: bool, room: nat -> bool, ghost bufs: map<nat, real>)
      returns (ok: bool, result: seq<real>, tape: Tape, live: seq<GraphValue>, ghost stop: nat)
      requires Valid() && Neat(Tape(map[], [], []), map[]) && BuffersHold(bufs)
      requires inputs.Keys == Placeholders(g)
      modifies this`buffers, this`rng, store
      ensures AllCalls(g, Calls(g, |g.nodes|))
      ensures ok <==> forall i | 0 <= i < |cut| :: room(i)
      ensures ok ==> result == ArgValues(g.output, Run(g, ops, Calls(g, |g.nodes|), World(inputs, bufs, old(rng))).env)
      ensures ok ==> rng == Run(g, ops, Calls(g, |g.nodes|), World(inputs, bufs, old(rng))).rng
      ensures ok ==> BuffersHold(Run(g, ops, Calls(g, |g.nodes|), World(inputs, bufs, old(rng))).bufs)
      ensures ok ==> exists es, ls :: Evaluated(g, ops, World(inputs, bufs, old(rng)), es, ls, result, rng, buffers, store.tensors)
      ensures ok ==> Valid() && Between(tape, live, World(inputs, bufs, old(rng)), |cut|, save)
      ensures !ok ==> stop < |cut| && !room(stop) && forall i | 0 <= i < stop :: room(i)
      ensures !ok ==> Valid() && Neat(Tape(map[], [], []), map[]) && BuffersHold(WorldAt(World(inputs, bufs, old(rng)), stop).bufs)
    {
      hide Run, WellFormed, IsCut, BuffersApart, Kept, Tidy, LiveAt, Stored, Between, AllStored, Evaluated;
      ghost var w0 := World(inputs, bufs, rng);
      result := [];
      tape := Start(inputs, save, bufs);
      live := seq(|g.nodes|, v requires 0 <= v < |g.nodes| => Unread(v));
      LiveAtStart(live);
      ok, tape, live, stop := ExecuteGroups(tape, live, save, room, w0);
      AllOfCut();
      if ok {
        result := ReadOutputs(tape, live, save, w0);
        ghost var es, ls := IsEvaluated(w0, result);
      }
    }

    /** What the uncut model computes is what its trace says. */
    lemma IsEvaluated(w0: World, result: seq<real>) returns (es: map<nat, Effect>, ls: map<nat, Linear>)
      requires WellFormed(g) && AllCalls(g, Calls(g, |g.nodes|))
      requires BuffersHold(Run(g, ops, Calls(g, |g.nodes|), w0).bufs) && rng == Run(g, ops, Calls(g, |g.nodes|), w0).rng
      requires result == ArgValues(g.output, Run(g, ops, Calls(g, |g.nodes|), w0).env)
      ensures Evaluated(g, ops, w0, es, ls, result, rng, buffers, store.tensors) && ls == Linearize(g, ops, Calls(g, |g.nodes|), w0)
    {
      hide Run, Linearize, WellFormed, Calls, Trace.IsTrace, Trace.IsBuffer, Trace.IsRng, Trace.IsOperand;
      es, ls := Trace.RunIsTraced(g, ops, w0, |g.nodes|);
      var w := Run(g, ops, Calls(g, |g.nodes|), w0);
      forall k | 0 <= k < |result| ensures Trace.IsOperand(w0, es, g.output[k], result[k]) {
        assert Trace.Holds(w.env, g.output[k], result[k]);
      }
      forall i, b | 0 <= i < |buffers| && b in buffers[i]
        ensures buffers[i][b] in store.tensors && Trace.IsBuffer(g, w0, es, |g.nodes|, b, store.tensors[buffers[i][b]])
      {
        assert Stored(buffers[i], store.tensors, w.bufs);
        assert Trace.Holds(w.bufs, b, store.tensors[buffers[i][b]]);
      }
    }

    /** The loop over the groups. */
    method ExecuteGroups(tape: Tape, live: seq<GraphValue>, save: bool, room: nat -> bool, ghost w0: World)
      returns (ok: bool, tape': Tape, live': seq<GraphValue>, ghost stop: nat)
      requires WellFormed(g) && IsCut(g, cut) && CutCalls(g, cut) && Between(tape, live, w0, 0, save)
      modifies this`buffers, this`rng, store
      ensures ok <==> forall i | 0 <= i < |cut| :: room(i)
      ensures ok ==> Between(tape', live', w0, |cut|, save)
      ensures !ok ==> stop < |cut| && !room(stop) && forall i | 0 <= i < stop :: room(i)
      ensures !ok ==> Valid() && Neat(Tape(map[], [], []), map[]) && BuffersHold(WorldAt(w0, stop).bufs)
    {
      hide Run, WellFormed, IsCut, CutCalls, Between, BuffersHold, Neat, Valid;
      tape', live' := tape, live;
      for i := 0 to |cut|
        invariant Between(tape', live', w0, i, save)
        invariant forall j | 0 <= j < i :: room(j)
      {
        if !room(i) {
          ok, stop := false, i;
          Refuse(tape', live', save, w0, i);
          return;
        }
        tape', live' := ExecuteGroup(i, tape', live', save, w0);
      }
      ok, stop := true, |cut|;
    }

    /** A pass that stops at group `i` gives the tape back. */
    method Refuse(tape: Tape, live: seq<GraphValue>, save: bool, ghost w0: World, i: nat)
      requires WellFormed(g) && IsCut(g, cut) && CutCalls(g, cut) && i <= |cut| && Between(tape, live, w0, i, save)
      modifies store
      ensures Valid() && Neat(Tape(map[], [], []), map[]) && BuffersHold(WorldAt(w0, i).bufs)
    {
      hide Run, WellFormed, IsCut, CutCalls, Kept, Tidy, LiveAt, Stored;
      ReleaseTape(tape, WorldAt(w0, i).bufs, 0, map[], seq(|g.nodes|, _ => None));
    }

    method Start(inputs: map<nat, real>, save: bool, ghost bufs: map<nat, real>) returns (tape: Tape)
      requires Valid() && Neat(Tape(map[], [], []), map[]) && BuffersHold(bufs)
      requires inputs.Keys == Placeholders(g)
      modifies store
      ensures forall live | LiveAt(live, 0) :: Between(tape, live, World(inputs, bufs, rng), 0, save)
    {
      hide WellFormed, IsCut, BuffersApart, Kept, Tidy, LiveAt, CutCalls, Placeholders;
      ghost var before := store.tensors;
      tape := SaveInputs(inputs);
      forall v: nat ensures v in tape.values <==> Kept(v, 0, save) {
        KeptAtStart(save, v);
      }
    }

    method ReadOutputs(tape: Tape, live: seq<GraphValue>, save: bool, ghost w0: World) returns (result: seq<real>)
      requires WellFormed(g) && IsCut(g, cut) && CutCalls(g, cut) && Between(tape, live, w0, |cut|, save)
      ensures result == ArgValues(g.output, WorldAt(w0, |cut|).env)
      ensures Valid() && rng == WorldAt(w0, |cut|).rng && BuffersHold(WorldAt(w0, |cut|).bufs)
    {
      hide Run, IsCut, WellFormed, Kept;
      forall k | 0 <= k < |g.output| ensures g.output[k] in tape.values {
        OutputsKept(save, g.output[k]);
      }
      var tensors := store.tensors;
      result := seq(|g.output|, k requires 0 <= k < |g.output| => tensors[tape.values[g.output[k]]]);
    }

    // ---- Pending gradients ----

    /** Takes the accumulated gradient of `v` out of the table. */
    method Settle(v: nat, ghost tape: Tape, pending: Gathered) returns (x: Grad, pending': Gathered)
      requires Neat(tape, pending)
      modifies store
      ensures Neat(tape, pending') && pending' == pending - {v}
      ensures x == GradOf(pending, old(store.tensors), v)
      ensures forall u | u != v :: GradOf(pending', store.tensors, u) == GradOf(pending, old(store.tensors), u)
      ensures GradsOnly(old(store.owner), old(store.tensors), store.owner, store.tensors)
    {
      hide Tidy;
      ghost var t := TablesOf(tape, pending);
      Entries(store.owner, t);
      x, pending' := None, pending - {v};
      ghost var t' := TablesOf(tape, pending');
      if v in pending && pending[v].Some? {
        x := Some(store.tensors[pending[v].value]);
        store.Free(pending[v].value);
        Remove(old(store.owner), t, t', PendingGrad(v));
      } else {
        SameEntries(store.owner, t, t');
      }
    }

    /** Adds `x` to what has been accumulated for `v`. */
    method Accumulate(v: nat, x: Grad, ghost tape: Tape, pending: Gathered) returns (pending': Gathered)
      requires Neat(tape, pending)
      modifies store
      ensures Neat(tape, pending') && pending'.Keys == pending.Keys + {v}
      ensures GradOf(pending', store.tensors, v) == Plus(GradOf(pending, old(store.tensors), v), x)
      ensures forall u | u != v :: GradOf(pending', store.tensors, u) == GradOf(pending, old(store.tensors), u)
      ensures GradsOnly(old(store.owner), old(store.tensors), store.owner, store.tensors)
    {
      var previous;
      previous, pending' := Settle(v, tape, pending);
      pending' := SaveGradient(v, Plus(previous, x), tape, pending');
    }

    method SaveGradient(v: nat, x: Grad, ghost tape: Tape, pending: Gathered) returns (pending': Gathered)
      requires Neat(tape, pending) && v !in pending
      modifies store
      ensures Neat(tape, pending') && pending'.Keys == pending.Keys + {v}
      ensures GradOf(pending', store.tensors, v) == x
      ensures forall u | u != v :: GradOf(pending', store.tensors, u) == GradOf(pending, old(store.tensors), u)
      ensures GradsOnly(old(store.owner), old(store.tensors), store.owner, store.tensors)
    {
      hide Tidy;
      ghost var t := TablesOf(tape, pending);
      Entries(store.owner, t);
      if x.Some? {
        var h := store.Offload(x.value, PendingGrad(v));
        pending' := pending[v := Some(h)];
        Insert(old(store.owner), t, TablesOf(tape, pending'), PendingGrad(v), h);
      } else {
        pending' := pending[v := None];
        SameEntries(store.owner, t, TablesOf(tape, pending'));
      }
    }

    /** Records the gradient of one trainable parameter. */
    method SaveParamGradient(i: nat, p: nat, x: Grad, ghost tape: Tape, ghost pending: Gathered)
      requires Neat(tape, pending) && i < |gradients| && p !in gradients[i]
      modifies this`gradients, store
      ensures Neat(tape, pending) && |gradients| == |old(gradients)|
      ensures forall j | 0 <= j < |gradients| && j != i :: gradients[j] == old(gradients[j])
      ensures forall q | q != p :: q in gradients[i] <==> q in old(gradients[i])
      ensures forall q | q != p && q in gradients[i] :: gradients[i][q] == old(gradients[i][q])
      ensures Recorded(gradients[i], store.tensors, p, x)
      ensures Grew(old(store.tensors), store.tensors)
    {
      hide Tidy;
      if x.Some? {
        ghost var t := TablesOf(tape, pending);
        Entries(store.owner, t);
        var h := store.Offload(x.value, ParamGrad(i, p));
        gradients := gradients[i := Put(gradients[i], p, h)];
        Insert(old(store.owner), t, TablesOf(tape, pending), ParamGrad(i, p), h);
      }
    }

    // ---- One group, backwards ----

    function GroupParams(ids: seq<nat>): set<nat>
      requires AllCalls(g, ids)
    {
      set c, k | c in ids && 0 <= k < |g.nodes[c].params| :: g.nodes[c].params[k]
    }

    /** What autograd gives parameter `k` of call `c`, when it is to be trained. */
    function ParamGradient(lin: map<nat, Linear>, acc: seq<Grad>, c: nat, k: nat): Grad
      requires c < |g.nodes| == |acc| && g.nodes[c].Call? && k < |g.nodes[c].params|
    {
      if g.nodes[c].params[k] in trainable then Times(ParamCoef(lin, c, k), acc[c]) else None
    }

    /** The record of a group holds the gradient of each of its parameters, and nothing else. */
    ghost predicate Differentiated(m: Handles, tensors: map<nat, real>, ids: seq<nat>, lin: map<nat, Linear>, acc: seq<Grad>)
      requires AllCalls(g, ids) && |acc| == |g.nodes|
    {
      && m.Keys <= GroupParams(ids)
      && forall c, k | c in ids && 0 <= k < |g.nodes[c].params| ::
           Recorded(m, tensors, g.nodes[c].params[k], ParamGradient(lin, acc, c, k))
    }

    method SettleOutputs(outputs: seq<nat>, ghost tape: Tape, pending: Gathered) returns (upstream: seq<Grad>, pending': Gathered)
      requires Neat(tape, pending) && NoDuplicates(outputs)
      modifies store
      ensures Neat(tape, pending') && |upstream| == |g.nodes|
      ensures forall v | 0 <= v < |g.nodes| ::
                upstream[v] == if v in outputs then GradOf(pending, old(store.tensors), v) else None
      ensures forall u | u !in outputs :: GradOf(pending', store.tensors, u) == GradOf(pending, old(store.tensors), u)
      ensures GradsOnly(old(store.owner), old(store.tensors), store.owner, store.tensors)
    {
      hide Neat, GradOf;
      upstream, pending' := seq(|g.nodes|, _ => None), pending;
      for k := 0 to |outputs|
        invariant Neat(tape, pending') && |upstream| == |g.nodes|
        invariant forall v | 0 <= v < |g.nodes| ::
                    upstream[v] == if v in outputs[..k] then GradOf(pending, old(store.tensors), v) else None
        invariant forall u | u !in outputs[..k] :: GradOf(pending', store.tensors, u) == GradOf(pending, old(store.tensors), u)
        invariant GradsOnly(old(store.owner), old(store.tensors), store.owner, store.tensors)
      {
        var v := outputs[k];
        var x;
        assert v !in outputs[..k];
        x, pending' := Settle(v, tape, pending');
        if v < |g.nodes| { upstream := upstream[v := x]; }
        assert outputs[..k + 1] == outputs[..k] + [v];
      }
      assert outputs[..|outputs|] == outputs;
    }

    method AccumulateInputs(inputs: seq<nat>, local: seq<Grad>, ghost tape: Tape, pending: Gathered) returns (pending': Gathered)
      requires Neat(tape, pending) && NoDuplicates(inputs) && forall v | v in inputs :: v < |local|
      modifies store
      ensures Neat(tape, pending')
      ensures forall v | v in inputs ::
                GradOf(pending', store.tensors, v) == Plus(GradOf(pending, old(store.tensors), v), local[v])
      ensures forall u | u !in inputs :: GradOf(pending', store.tensors, u) == GradOf(pending, old(store.tensors), u)
      ensures GradsOnly(old(store.owner), old(store.tensors), store.owner, store.tensors)
    {
      hide Neat, GradOf, Plus;
      pending' := pending;
      for k := 0 to |inputs|
        invariant Neat(tape, pending')
        invariant forall v | v in inputs[..k] :: v < |local| &&
                    GradOf(pending', store.tensors, v) == Plus(GradOf(pending, old(store.tensors), v), local[v])
        invariant forall u | u !in inputs[..k] :: GradOf(pending', store.tensors, u) == GradOf(pending, old(store.tensors), u)
        invariant GradsOnly(old(store.owner), old(store.tensors), store.owner, store.tensors)
      {
        var v := inputs[k];
        assert v in inputs && v !in inputs[..k];
        pending' := Accumulate(v, local[v], tape, pending');
        assert inputs[..k + 1] == inputs[..k] + [v];
      }
      assert inputs[..|inputs|] == inputs;
    }

    /** The gradients of the group's trainable parameters become entries of its record. */
    method SaveParamGradients(i: nat, lin: map<nat, Linear>, acc: seq<Grad>, ghost tape: Tape, ghost pending: Gathered)
      requires ParamsApart(g) && i < |cut| == |gradients| && AllCalls(g, cut[i]) && |acc| == |g.nodes|
      requires Neat(tape, pending) && gradients[i] == map[]
      modifies this`gradients, store
      ensures Neat(tape, pending) && |gradients| == |old(gradients)|
      ensures forall j | 0 <= j < |gradients| && j != i :: gradients[j] == old(gradients[j])
      ensures Differentiated(gradients[i], store.tensors, cut[i], lin, acc)
      ensures Grew(old(store.tensors), store.tensors)
    {
      hide Neat, Grew, RecordedBut, Differentiated;
      GrewNothing(store.tensors);
      var ids := cut[i];
      var todo := GroupParams(ids) * trainable;
      RecordedNone(store.tensors, ids, lin, acc);
      while todo != {}
        invariant Neat(tape, pending) && |gradients| == |old(gradients)|
        invariant forall j | 0 <= j < |gradients| && j != i :: gradients[j] == old(gradients[j])
        invariant todo <= GroupParams(ids) * trainable
        invariant gradients[i].Keys <= GroupParams(ids) * trainable - todo
        invariant RecordedBut(gradients[i], store.tensors, ids, todo, lin, acc)
        invariant Grew(old(store.tensors), store.tensors)
      {
        var p :| p in todo;
        var c, k :| c in ids && 0 <= k < |g.nodes[c].params| && g.nodes[c].params[k] == p;
        ghost var before, m := store.tensors, gradients[i];
        SaveParamGradient(i, p, ParamGradient(lin, acc, c, k), tape, pending);
        GrewOn(old(store.tensors), before, store.tensors);
        RecordedMore(m, before, gradients[i], store.tensors, ids, todo, lin, acc, c, k);
        todo := todo - {p};
      }
      RecordedAll(gradients[i], store.tensors, ids, lin, acc);
    }

    /** All parameters but those in `todo` have their gradient recorded. */
    ghost predicate RecordedBut(m: Handles, tensors: map<nat, real>, ids: seq<nat>, todo: set<nat>, lin: map<nat, Linear>, acc: seq<Grad>)
      requires AllCalls(g, ids) && |acc| == |g.nodes|
    {
      forall c, k | c in ids && 0 <= k < |g.nodes[c].params| && g.nodes[c].params[k] !in todo ::
        Recorded(m, tensors, g.nodes[c].params[k], ParamGradient(lin, acc, c, k))
    }

    lemma RecordedNone(tensors: map<nat, real>, ids: seq<nat>, lin: map<nat, Linear>, acc: seq<Grad>)
      requires AllCalls(g, ids) && |acc| == |g.nodes|
      ensures RecordedBut(map[], tensors, ids, GroupParams(ids) * trainable, lin, acc)
    {
    }

    lemma RecordedMore(m: Handles, before: map<nat, real>, m': Handles, after: map<nat, real>, ids: seq<nat>, todo: set<nat>,
                       lin: map<nat, Linear>, acc: seq<Grad>, c: nat, k: nat)
      requires AllCalls(g, ids) && |acc| == |g.nodes| && ParamsApart(g) && RecordedBut(m, before, ids, todo, lin, acc) && Grew(before, after)
      requires c in ids && k < |g.nodes[c].params| && Recorded(m', after, g.nodes[c].params[k], ParamGradient(lin, acc, c, k))
      requires forall q | q != g.nodes[c].params[k] :: (q in m' <==> q in m) && (q in m' ==> m'[q] == m[q])
      ensures RecordedBut(m', after, ids, todo - {g.nodes[c].params[k]}, lin, acc)
    {
      hide ParamGradient;
    }

    lemma RecordedAll(m: Handles, tensors: map<nat, real>, ids: seq<nat>, lin: map<nat, Linear>, acc: seq<Grad>)
      requires AllCalls(g, ids) && |acc| == |g.nodes| && RecordedBut(m, tensors, ids, {}, lin, acc) && m.Keys <= GroupParams(ids)
      ensures Differentiated(m, tensors, ids, lin, acc)
    {
    }

    /** The coefficients of the uncut model's run from `w0`. */
    ghost function Reference(w0: World): map<nat, Linear>
      requires IsCut(g, cut)
    {
      CallsAreCalls(g);
      Linearize(g, ops, Flatten(cut), w0)
    }

    /** A value visible before group `i` keeps its value to the end of the pass. */
    lemma EnvStable(w0: World, i: nat, n: nat, v: nat)
      requires WellFormed(g) && IsCut(g, cut) && CutCalls(g, cut) && i <= n <= |cut| && Boundary(g, cut, v, i)
      ensures Look(WorldAt(w0, n).env, v) == Look(WorldAt(w0, i).env, v)
      decreases n - i
    {
      hide Run;
      if i < n {
        EnvStable(w0, i, n - 1, v);
        GroupFrame(w0, n - 1);
        ElsewhereLater(i, n - 1, v);
      }
    }

    /** A value visible before group `i` belongs to no group from `i` on. */
    lemma ElsewhereLater(i: nat, j: nat, v: nat)
      requires IsCut(g, cut) && CutCalls(g, cut) && i <= j < |cut| && Boundary(g, cut, v, i)
      ensures v !in cut[j]
    {
      CutOrder(g, cut, j);
      if v in cut[j] {
        var n :| 0 <= n < |cut[j]| && cut[j][n] == v;
        var k :| 0 <= k < i && k < |cut| && v in GroupOutputs(g, cut[k]);
        OneGroup(g, cut, k, j, v);
      }
    }

    /** A buffer group `i` reads without being its BatchNorm's is never replaced. */
    lemma BufferStable(w0: World, i: nat, n: nat, m: nat, b: nat)
      requires WellFormed(g) && IsCut(g, cut) && CutCalls(g, cut) && BuffersApart(g, cut) && i < |cut| && n <= m <= |cut|
      requires b in BuffersOf(g, cut[i]) && b !in MutableBuffers(g, cut[i])
      ensures Look(WorldAt(w0, m).bufs, b) == Look(WorldAt(w0, n).bufs, b)
      decreases m - n
    {
      hide Run;
      if n < m {
        BufferStable(w0, i, n, m - 1, b);
        GroupFrame(w0, m - 1);
        assert MutableBuffers(g, cut[m - 1]) !! BuffersOf(g, cut[i]) || m - 1 == i;
      }
    }

    /** Recomputation meets the coefficients of the uncut run. */
    lemma CoefficientsAgree(w0: World, i: nat, local: World)
      requires IsCut(g, cut) && CutCalls(g, cut) && i < |cut|
      requires Agree(g, cut[i], local, WorldAt(w0, i))
      ensures forall c | c in cut[i] ::
                && c in Reference(w0) && c in Linearize(g, ops, cut[i], local)
                && Reference(w0)[c] == Linearize(g, ops, cut[i], local)[c]
    {
      hide Run, Linearize, Agree, IsCut, Reference;
      LinearizeAgree(g, ops, cut[i], local, WorldAt(w0, i));
      forall c | c in cut[i]
        ensures c in Reference(w0) && c in Linearize(g, ops, cut[i], local)
        ensures Reference(w0)[c] == Linearize(g, ops, cut[i], local)[c]
      {
        CoefficientAgrees(w0, i, c);
      }
    }

    lemma CoefficientAgrees(w0: World, i: nat, c: nat)
      requires IsCut(g, cut) && i < |cut| && AllCalls(g, cut[i]) && c in cut[i]
      ensures c in Reference(w0) && c in Linearize(g, ops, cut[i], WorldAt(w0, i))
      ensures Reference(w0)[c] == Linearize(g, ops, cut[i], WorldAt(w0, i))[c]
    {
      hide Run, Linearize, IsCut, Flatten, Calls;
      CutOrder(g, cut, i);
      CutAt(cut, i);
      var n :| 0 <= n < |cut[i]| && cut[i][n] == c;
      LinearizeGroup(g, ops, Flatten(cut), |Flatten(cut[..i])|, |Flatten(cut[..i + 1])|, w0, n);
    }

    ghost predicate GradientsFrom(gradients: seq<Handles>, tensors: map<nat, real>, i: nat, lin: map<nat, Linear>, acc: seq<Grad>)
      requires CutCalls(g, cut) && i <= |cut| && |acc| == |g.nodes|
    {
      && |gradients| == |cut|
      && (forall j | 0 <= j < i :: gradients[j] == map[])
      && (forall j | i <= j < |cut| :: Differentiated(gradients[j], tensors, cut[j], lin, acc))
    }

    /** Everything a reverse pass relies on, apart from the gradients under way. */
    ghost predicate Kit(t: Tables, rngs: seq<int>, tensors: map<nat, real>, w0: World, i: nat, lin: map<nat, Linear>, acc: seq<Grad>)
      requires IsCut(g, cut) && CutCalls(g, cut) && i <= |cut| && |acc| == |g.nodes|
    {
      && |t.buffers| == |cut|
      && (forall j | 0 <= j < |cut| :: t.buffers[j].Keys == BuffersOf(g, cut[j]))
      && (forall v | Boundary(g, cut, v, i) :: v in t.values)
      && Stored(t.values, tensors, WorldAt(w0, |cut|).env)
      && Snapped(t.snapshots, rngs, tensors, w0, |cut|, true)
      && AllStored(t.buffers, tensors, WorldAt(w0, |cut|).bufs)
      && GradientsFrom(t.gradients, tensors, i, lin, acc)
    }

    lemma SnappedSurvives(snapshots: seq<Handles>, rngs: seq<int>, before: map<nat, real>, after: map<nat, real>, w0: World, n: nat, save: bool)
      requires IsCut(g, cut) && CutCalls(g, cut) && n <= |cut| && Snapped(snapshots, rngs, before, w0, n, save)
      requires AllSurvive(snapshots, before, after)
      ensures Snapped(snapshots, rngs, after, w0, n, save)
    {
      hide Run, IsCut, CutCalls, Stored, Survives;
      forall j | 0 <= j < n ensures Stored(snapshots[j], after, WorldAt(w0, j).bufs) {
        StoredSurvives(snapshots[j], before, after, WorldAt(w0, j).bufs);
      }
    }

    lemma GradientsSurvive(gradients: seq<Handles>, before: map<nat, real>, after: map<nat, real>, i: nat, lin: map<nat, Linear>, acc: seq<Grad>)
      requires CutCalls(g, cut) && i <= |cut| && |acc| == |g.nodes| && GradientsFrom(gradients, before, i, lin, acc)
      requires AllSurvive(gradients, before, after)
      ensures GradientsFrom(gradients, after, i, lin, acc)
    {
      hide Differentiated;
      forall j | i <= j < |cut| ensures Differentiated(gradients[j], after, cut[j], lin, acc) {
        assert Survives(gradients[j], before, after);
        DifferentiatedKept(gradients[j], before, after, cut[j], lin, acc);
      }
    }

    /** Everything but the values of the tape, as far as its handles survive. */
    lemma KitSurvives(t: Tables, t': Tables, rngs: seq<int>, before: map<nat, real>, after: map<nat, real>, w0: World, i: nat,
                      lin: map<nat, Linear>, acc: seq<Grad>)
      requires IsCut(g, cut) && CutCalls(g, cut) && i <= |cut| && |acc| == |g.nodes|
      requires Kit(t, rngs, before, w0, i, lin, acc) && t' == t.(values := t'.values)
      requires AllSurvive(t.snapshots, before, after) && AllSurvive(t.buffers, before, after) && AllSurvive(t.gradients, before, after)
      requires Stored(t'.values, after, WorldAt(w0, |cut|).env) && forall v | Boundary(g, cut, v, i) :: v in t'.values
      ensures Kit(t', rngs, after, w0, i, lin, acc)
    {
      hide Run, IsCut, CutCalls, Boundary, Stored, AllStored, AllSurvive, Snapped, GradientsFrom, BuffersOf;
      SnappedSurvives(t.snapshots, rngs, before, after, w0, |cut|, true);
      AllStoredSurvives(t.buffers, before, after, WorldAt(w0, |cut|).bufs);
      GradientsSurvive(t.gradients, before, after, i, lin, acc);
    }

    lemma KitGrads(t: Tables, rngs: seq<int>, owner: map<nat, Owner>, before: map<nat, real>, owner': map<nat, Owner>,
                   after: map<nat, real>, w0: World, i: nat, lin: map<nat, Linear>, acc: seq<Grad>)
      requires IsCut(g, cut) && CutCalls(g, cut) && i <= |cut| && |acc| == |g.nodes|
      requires Tidy(owner, t) && Kit(t, rngs, before, w0, i, lin, acc) && GradsOnly(owner, before, owner', after)
      ensures Kit(t, rngs, after, w0, i, lin, acc)
    {
      hide Tidy, Run, IsCut, CutCalls, Boundary, Snapped, GradientsFrom, AllStored, Stored, AllSurvive, Survives, GradsOnly, BuffersOf;
      GradsOnlySurvives(owner, t, before, owner', after);
      StoredSurvives(t.values, before, after, WorldAt(w0, |cut|).env);
      KitSurvives(t, t, rngs, before, after, w0, i, lin, acc);
    }

    /** Gradients stay recorded as long as their handles do. */
    lemma DifferentiatedKept(m: Handles, before: map<nat, real>, after: map<nat, real>, ids: seq<nat>, lin: map<nat, Linear>,
                             acc: seq<Grad>)
      requires AllCalls(g, ids) && |acc| == |g.nodes| && Differentiated(m, before, ids, lin, acc)
      requires forall p | p in m && m[p] in before :: m[p] in after && after[m[p]] == before[m[p]]
      ensures Differentiated(m, after, ids, lin, acc)
    {
      hide ParamGradient;
    }

    lemma KitGrowth(t: Tables, rngs: seq<int>, before: map<nat, real>, after: map<nat, real>, w0: World, i: nat,
                    lin: map<nat, Linear>, acc: seq<Grad>)
      requires IsCut(g, cut) && CutCalls(g, cut) && i <= |cut| && |acc| == |g.nodes|
      requires Kit(t, rngs, before, w0, i, lin, acc) && Grew(before, after)
      ensures Kit(t, rngs, after, w0, i, lin, acc)
    {
      hide Run, IsCut, CutCalls, Boundary, Snapped, GradientsFrom, AllStored, Stored, AllSurvive, BuffersOf;
      GrewSurvives(t, before, after);
      StoredSurvives(t.values, before, after, WorldAt(w0, |cut|).env) by { GrewOne(t.values, before, after); }
      KitSurvives(t, t, rngs, before, after, w0, i, lin, acc);
    }

    lemma KitRelease(t: Tables, t': Tables, rngs: seq<int>, owner: map<nat, Owner>, before: map<nat, real>, owner': map<nat, Owner>,
                     after: map<nat, real>, w0: World, i: nat, lin: map<nat, Linear>, acc: seq<Grad>)
      requires IsCut(g, cut) && CutCalls(g, cut) && i <= |cut| && |acc| == |g.nodes|
      requires Tidy(owner, t) && Kit(t, rngs, before, w0, i, lin, acc) && StateKept(owner, before, owner', after)
      requires t' == t.(values := t'.values)
      requires Stored(t'.values, after, WorldAt(w0, |cut|).env) && forall v | Boundary(g, cut, v, i) :: v in t'.values
      ensures Kit(t', rngs, after, w0, i, lin, acc)
    {
      hide Tidy, Run, IsCut, CutCalls, Boundary, Snapped, GradientsFrom, AllStored, Stored, AllSurvive, StateKept, BuffersOf;
      StateKeptSurvives(owner, t, before, owner', after);
      KitSurvives(t, t', rngs, before, after, w0, i, lin, acc);
    }

    /** Local differentiation of group `i`: run it again and read off its coefficients. */
    method Recompute(i: nat, tape: Tape, ghost pending: Gathered, ghost w0: World, ghost lin: map<nat, Linear>, ghost acc: seq<Grad>)
      returns (here: map<nat, Linear>)
      requires Valid() && i < |cut| && |acc| == |g.nodes|
      requires Kit(TablesOf(tape, pending), tape.rngs, store.tensors, w0, i + 1, lin, acc)
      ensures forall c | c in cut[i] :: c in Reference(w0) && c in here && Reference(w0)[c] == here[c]
    {
      hide Run, Agree, Linearize, GradientsFrom, BuffersOf, MutableBuffers, GroupInputs, GroupOutputs, BuffersApart, IsCut, Reference;
      forall v | v in GroupInputs(g, cut[i])
        ensures v in tape.values && Look(WorldAt(w0, |cut|).env, v) == Look(WorldAt(w0, i).env, v)
      {
        InputsAreBoundary(g, cut, i, v);
        EnvStable(w0, i, |cut|, v);
      }
      forall b | b in buffers[i] && b !in tape.snapshots[i]
        ensures Look(WorldAt(w0, |cut|).bufs, b) == Look(WorldAt(w0, i).bufs, b)
      {
        BufferStable(w0, i, i, |cut|, b);
      }
      var local := RunGroup(i, tape, tape.snapshots[i], tape.rngs[i], w0);
      here := Linearize(g, ops, cut[i], local);
      CoefficientsAgree(w0, i, local);
    }

    /** The gradients of the uncut model, once the groups from `i` on are done. */
    ghost function GradientsAt(w0: World, outs: seq<Grad>, i: nat): (r: seq<Grad>)
      requires WellFormed(g) && IsCut(g, cut) && CutCalls(g, cut) && |outs| == |g.output| && i <= |cut|
      ensures |r| == |g.nodes|
    {
      SweepFrom(g, Reference(w0), cut, Seed(g, outs, |outs|), i)
    }

    /** What has been accumulated is the uncut model's gradient, for every value not yet consumed. */
    ghost predicate Gathers(pending: Gathered, tensors: map<nat, real>, i: nat, acc: seq<Grad>)
      requires i <= |cut| && |acc| == |g.nodes|
    {
      forall v | 0 <= v < |g.nodes| && v !in Flatten(cut[i..]) :: GradOf(pending, tensors, v) == acc[v]
    }

    lemma RestIsGroupAndRest(i: nat, v: nat)
      requires IsCut(g, cut) && i < |cut|
      ensures v in Flatten(cut[i..]) <==> v in cut[i] || v in Flatten(cut[i + 1..])
      ensures v in cut[i] ==> v !in Flatten(cut[i + 1..])
    {
      FlattenSuffix(cut, i);
      CutOrder(g, cut, i);
    }

    /** What group `i` is told is the gradient of each of its nodes: hidden ones have none. */
    lemma UpstreamIsGradient(w0: World, outs: seq<Grad>, i: nat, upstream: seq<Grad>, pending: Gathered, tensors: map<nat, real>)
      requires WellFormed(g) && IsCut(g, cut) && CutCalls(g, cut) && |outs| == |g.output| && i < |cut| && |upstream| == |g.nodes|
      requires Gathers(pending, tensors, i + 1, GradientsAt(w0, outs, i + 1))
      requires forall v | 0 <= v < |g.nodes| ::
                 upstream[v] == if v in GroupOutputs(g, cut[i]) then GradOf(pending, tensors, v) else None
      ensures forall v: nat | v < |g.nodes| ::
                upstream[v] == if v in cut[i] then GradientsAt(w0, outs, i + 1)[v] else None
    {
      forall v: nat | v < |g.nodes|
        ensures upstream[v] == if v in cut[i] then GradientsAt(w0, outs, i + 1)[v] else None
      {
        hide SweepFrom, Reference, IsCut, Flatten, GroupOutputs, Seed;
        if v in cut[i] {
          RestIsGroupAndRest(i, v);
          if v !in GroupOutputs(g, cut[i]) {
            HiddenHasNone(g, Reference(w0), cut, Seed(g, outs, |outs|), i, v);
          }
        } else if v in GroupOutputs(g, cut[i]) {
          OutputIsMember(i, v);
        }
      }
    }

    /** Moves the gradients of group `i`'s outputs through the group to its inputs. */
    method Backpropagate(i: nat, here: map<nat, Linear>, ghost tape: Tape, pending: Gathered, ghost w0: World, ghost outs: seq<Grad>)
      returns (local: seq<Grad>, pending': Gathered)
      requires WellFormed(g) && IsCut(g, cut) && CutCalls(g, cut) && |outs| == |g.output| && i < |cut|
      requires Neat(tape, pending) && Gathers(pending, store.tensors, i + 1, GradientsAt(w0, outs, i + 1))
      requires forall c | c in cut[i] :: c in Reference(w0) && c in here && Reference(w0)[c] == here[c]
      modifies store
      ensures Neat(tape, pending') && Gathers(pending', store.tensors, i, GradientsAt(w0, outs, i))
      ensures |local| == |g.nodes| && forall c | c in cut[i] && c < |g.nodes| :: local[c] == GradientsAt(w0, outs, i)[c]
      ensures GradsOnly(old(store.owner), old(store.tensors), store.owner, store.tensors)
    {
      hide Neat, Sweep, GroupInputs, GroupOutputs, IsCut, Reference, Flatten, Seed, GradOf, WellFormed;
      ghost var acc := GradientsAt(w0, outs, i + 1);
      var upstream;
      CutOrder(g, cut, i);
      ghost var before := store.tensors;
      upstream, pending' := SettleOutputs(GroupOutputs(g, cut[i]), tape, pending);
      UpstreamIsGradient(w0, outs, i, upstream, pending, before);
      local := Sweep(g, here, cut[i], upstream);
      GroupSweep(g, Reference(w0), here, cut[i], acc, upstream);
      ghost var settled, middle := pending', store.tensors;
      InputsKept(i, true);
      pending' := AccumulateInputs(GroupInputs(g, cut[i]), local, tape, pending');
      forall v | 0 <= v < |g.nodes| && v !in Flatten(cut[i..])
        ensures GradOf(pending', store.tensors, v) == GradientsAt(w0, outs, i)[v]
      {
        RestIsGroupAndRest(i, v);
        PlusAssoc(acc[v], None, None);
      }
    }

    /** A consumed group's boundary values leave the tape. */
    method DropOutputs(outputs: seq<nat>, tape: Tape, ghost pending: Gathered, ghost w: map<nat, real>) returns (tape': Tape)
      requires Neat(tape, pending) && Holds(tape.values, w)
      requires NoDuplicates(outputs) && forall v | v in outputs :: v in tape.values
      modifies store
      ensures Neat(tape', pending) && Holds(tape'.values, w)
      ensures tape' == tape.(values := tape'.values)
      ensures tape'.values.Keys == tape.values.Keys - (set v | v in outputs)
      ensures StateKept(old(store.owner), old(store.tensors), store.owner, store.tensors)
    {
      hide Neat, Stored;
      tape' := tape;
      for k := 0 to |outputs|
        invariant Neat(tape', pending) && Holds(tape'.values, w)
        invariant tape' == tape.(values := tape'.values)
        invariant tape'.values.Keys == tape.values.Keys - (set v | v in outputs[..k])
        invariant StateKept(old(store.owner), old(store.tensors), store.owner, store.tensors)
      {
        assert outputs[k] in outputs && outputs[k] !in outputs[..k];
        assert outputs[..k + 1] == outputs[..k] + [outputs[k]];
        tape' := Drop(outputs[k], tape', pending, w);
      }
      assert outputs[..|outputs|] == outputs;
    }

    /** What holds between groups of a reverse pass; groups from `i` on are done. */
    ghost predicate Reversing(tape: Tape, pending: Gathered, w0: World, outs: seq<Grad>, i: nat)
      requires WellFormed(g) && IsCut(g, cut) && CutCalls(g, cut) && |outs| == |g.output| && i <= |cut|
      reads this, store
    {
      && Valid() && Neat(tape, pending)
      && Gathers(pending, store.tensors, i, GradientsAt(w0, outs, i))
      && Kit(TablesOf(tape, pending), tape.rngs, store.tensors, w0, i, Reference(w0), GradientsAt(w0, outs, i))
    }

    /** The records' gradients are final when their group has been processed. */
    lemma GradientsFinal(gradients: seq<Handles>, tensors: map<nat, real>, w0: World, outs: seq<Grad>, i: nat)
      requires WellFormed(g) && IsCut(g, cut) && CutCalls(g, cut) && |outs| == |g.output| && i < |cut| == |gradients|
      requires forall j | 0 <= j < i :: gradients[j] == map[]
      requires forall j | i < j < |cut| :: Differentiated(gradients[j], tensors, cut[j], Reference(w0), GradientsAt(w0, outs, i + 1))
      requires Differentiated(gradients[i], tensors, cut[i], Reference(w0), GradientsAt(w0, outs, i))
      ensures GradientsFrom(gradients, tensors, i, Reference(w0), GradientsAt(w0, outs, i))
    {
      forall j | i < j < |cut| ensures Differentiated(gradients[j], tensors, cut[j], Reference(w0), GradientsAt(w0, outs, i)) {
        forall c | c in cut[j] && c < |g.nodes| ensures GradientsAt(w0, outs, i)[c] == GradientsAt(w0, outs, i + 1)[c] {
          hide Sweep, Reference, IsCut, WellFormed, Flatten, Seed, Differentiated;
          FinalOnce(w0, outs, i, j, c);
        }
        DifferentiatedSame(gradients[j], tensors, cut[j], Reference(w0), Reference(w0),
                           GradientsAt(w0, outs, i + 1), GradientsAt(w0, outs, i));
      }
    }

    /** What is recorded for the groups from `i` on is not changed by the walk over the groups before. */
    lemma {:induction false} GradientsStay(gradients: seq<Handles>, tensors: map<nat, real>, w0: World, outs: seq<Grad>, i: nat, n: nat)
      requires WellFormed(g) && IsCut(g, cut) && CutCalls(g, cut) && |outs| == |g.output| && n <= i <= |cut|
      requires GradientsFrom(gradients, tensors, i, Reference(w0), GradientsAt(w0, outs, n))
      ensures GradientsFrom(gradients, tensors, i, Reference(w0), WholeGraphGradients(w0, outs))
    {
      hide Reference, IsCut, WellFormed, Flatten, Differentiated, WholeGraphGradients, GradientsAt;
      if n == 0 {
        WalkIsSweep(w0, outs);
      } else {
        forall j | i <= j < |cut| ensures Differentiated(gradients[j], tensors, cut[j], Reference(w0), GradientsAt(w0, outs, n - 1)) {
          forall c | c in cut[j] && c < |g.nodes| ensures GradientsAt(w0, outs, n - 1)[c] == GradientsAt(w0, outs, n)[c] {
            FinalOnce(w0, outs, n - 1, j, c);
          }
          DifferentiatedSame(gradients[j], tensors, cut[j], Reference(w0), Reference(w0), GradientsAt(w0, outs, n), GradientsAt(w0, outs, n - 1));
        }
        GradientsStay(gradients, tensors, w0, outs, i, n - 1);
      }
    }

    lemma FinalOnce(w0: World, outs: seq<Grad>, i: nat, j: nat, c: nat)
      requires WellFormed(g) && IsCut(g, cut) && CutCalls(g, cut) && |outs| == |g.output| && i < j < |cut| && c in cut[j] && c < |g.nodes|
      ensures GradientsAt(w0, outs, i)[c] == GradientsAt(w0, outs, i + 1)[c]
    {
      hide Sweep, Reference, IsCut, WellFormed, Flatten, Seed;
      assert c in cut[i + 1..][j - i - 1];
      InFlatten(cut[i + 1..], c);
      LaterIsFinal(g, Reference(w0), cut, i, GradientsAt(w0, outs, i + 1), c);
    }

    /** Only the coefficients and the gradients of the group's own calls matter. */
    lemma DifferentiatedSame(m: Handles, tensors: map<nat, real>, ids: seq<nat>, lin: map<nat, Linear>, lin': map<nat, Linear>,
                             acc: seq<Grad>, acc': seq<Grad>)
      requires AllCalls(g, ids) && |acc| == |acc'| == |g.nodes| && Differentiated(m, tensors, ids, lin, acc)
      requires forall c | c in ids && c < |g.nodes| :: acc[c] == acc'[c]
      requires lin == lin' || forall c | c in ids :: c in lin && c in lin' && lin[c] == lin'[c]
      ensures Differentiated(m, tensors, ids, lin', acc')
    {
      hide Recorded;
      forall c, k | c in ids && 0 <= k < |g.nodes[c].params|
        ensures Recorded(m, tensors, g.nodes[c].params[k], ParamGradient(lin', acc', c, k))
      {
        assert ParamGradient(lin', acc', c, k) == ParamGradient(lin, acc, c, k);
      }
    }

    lemma GathersKept(t: Tables, owner: map<nat, Owner>, before: map<nat, real>, owner': map<nat, Owner>, after: map<nat, real>,
                      i: nat, acc: seq<Grad>)
      requires i <= |cut| && |acc| == |g.nodes| && Tidy(owner, t) && Gathers(t.pending, before, i, acc)
      requires Grew(before, after) || StateKept(owner, before, owner', after)
      requires owner.Keys == before.Keys
      ensures Gathers(t.pending, after, i, acc)
    {
      hide Tidy, Flatten;
      Entries(owner, t);
    }

    lemma BoundaryGrows(i: nat)
      requires IsCut(g, cut) && CutCalls(g, cut) && i < |cut|
      ensures forall v | Boundary(g, cut, v, i) :: Boundary(g, cut, v, i + 1) && v !in GroupOutputs(g, cut[i])
      ensures forall v | v in GroupOutputs(g, cut[i]) :: Boundary(g, cut, v, i + 1)
    {
      forall v | Boundary(g, cut, v, i) ensures v !in GroupOutputs(g, cut[i]) {
        ElsewhereLater(i, i, v);
      }
      forall v | v in GroupOutputs(g, cut[i]) ensures Boundary(g, cut, v, i + 1) {
        OutputIsMember(i, v);
      }
    }

    /** Group `i`'s parameter gradients are recorded. */
    method RecordGradients(i: nat, here: map<nat, Linear>, local: seq<Grad>, tape: Tape, ghost pending: Gathered, ghost w0: World,
                           ghost outs: seq<Grad>)
      requires WellFormed(g) && IsCut(g, cut) && CutCalls(g, cut) && ParamsApart(g) && |outs| == |g.output| && i < |cut|
      requires Valid() && Neat(tape, pending) && Gathers(pending, store.tensors, i, GradientsAt(w0, outs, i))
      requires Kit(TablesOf(tape, pending), tape.rngs, store.tensors, w0, i + 1, Reference(w0), GradientsAt(w0, outs, i + 1))
      requires forall c | c in cut[i] :: c in Reference(w0) && c in here && Reference(w0)[c] == here[c]
      requires |local| == |g.nodes| && forall c | c in cut[i] && c < |g.nodes| :: local[c] == GradientsAt(w0, outs, i)[c]
      modifies this`gradients, store
      ensures Reversing(tape, pending, w0, outs, i)
      ensures forall v | v in GroupOutputs(g, cut[i]) :: v in tape.values
    {
      hide Run, WellFormed, IsCut, ParamsApart, BuffersApart, Tidy, Differentiated, GroupOutputs, BuffersOf, Reference, Boundary, Gathers, Stored, Snapped, AllStored, Grew, SweepFrom;
      ghost var t, owner, before := TablesOf(tape, pending), store.owner, store.tensors;
      SaveParamGradients(i, here, local, tape, pending);
      KitGrowth(t, tape.rngs, before, store.tensors, w0, i + 1, Reference(w0), GradientsAt(w0, outs, i + 1));
      GathersKept(t, owner, before, store.owner, store.tensors, i, GradientsAt(w0, outs, i));
      DifferentiatedSame(gradients[i], store.tensors, cut[i], here, Reference(w0), local, GradientsAt(w0, outs, i));
      GradientsFinal(gradients, store.tensors, w0, outs, i);
      BoundaryGrows(i);
    }

    /** One group of the reverse pass. */
    method ReverseGroup(i: nat, tape: Tape, pending: Gathered, ghost w0: World, ghost outs: seq<Grad>)
      returns (tape': Tape, pending': Gathered)
      requires WellFormed(g) && IsCut(g, cut) && CutCalls(g, cut) && ParamsApart(g) && |outs| == |g.output| && i < |cut|
      requires Reversing(tape, pending, w0, outs, i + 1)
      modifies this`gradients, store
      ensures Reversing(tape', pending', w0, outs, i)
    {
      hide Run, WellFormed, IsCut, ParamsApart, BuffersApart, Tidy, Differentiated, GroupOutputs, BuffersOf, Reference, Boundary, Gathers, Stored, Snapped, AllStored;
      var here := Recompute(i, tape, pending, w0, Reference(w0), GradientsAt(w0, outs, i + 1));
      ghost var t, owner, before := TablesOf(tape, pending), store.owner, store.tensors;
      var local;
      local, pending' := Backpropagate(i, here, tape, pending, w0, outs);
      KitGrads(t, tape.rngs, owner, before, store.owner, store.tensors, w0, i + 1, Reference(w0), GradientsAt(w0, outs, i + 1));
      RecordGradients(i, here, local, tape, pending', w0, outs);
      tape' := ConsumeOutputs(i, tape, pending', w0, outs);
    }

    method ConsumeOutputs(i: nat, tape: Tape, ghost pending: Gathered, ghost w0: World, ghost outs: seq<Grad>) returns (tape': Tape)
      requires WellFormed(g) && IsCut(g, cut) && CutCalls(g, cut) && |outs| == |g.output| && i < |cut|
      requires Reversing(tape, pending, w0, outs, i)
      requires forall v | v in GroupOutputs(g, cut[i]) :: v in tape.values
      modifies store
      ensures Reversing(tape', pending, w0, outs, i)
    {
      hide Run, WellFormed, IsCut, BuffersApart, Tidy, GroupOutputs, Reference, Boundary, Gathers, Stored, Snapped, AllStored, GradientsFrom, StateKept;
      ghost var t, owner, before := TablesOf(tape, pending), store.owner, store.tensors;
      CutOrder(g, cut, i);
      BoundaryGrows(i);
      tape' := DropOutputs(GroupOutputs(g, cut[i]), tape, pending, WorldAt(w0, |cut|).env);
      KitRelease(t, TablesOf(tape', pending), tape.rngs, owner, before, store.owner, store.tensors, w0, i, Reference(w0), GradientsAt(w0, outs, i));
      GathersKept(t, owner, before, store.owner, store.tensors, i, GradientsAt(w0, outs, i));
    }

    /** A group none of whose outputs has been given a gradient contributes nothing. */
    lemma SkipGroup(tape: Tape, pending: Gathered, w0: World, outs: seq<Grad>, i: nat)
      requires WellFormed(g) && IsCut(g, cut) && CutCalls(g, cut) && |outs| == |g.output| && i < |cut|
      requires Reversing(tape, pending, w0, outs, i + 1)
      requires forall v | v in GroupOutputs(g, cut[i]) :: v !in pending
      ensures Reversing(tape, pending, w0, outs, i)
    {
      hide Run, WellFormed, IsCut, BuffersApart, Neat, GroupOutputs, Reference, Boundary, Stored, Snapped, AllStored, Flatten, Seed, Sweep, Differentiated;
      ghost var acc, acc' := GradientsAt(w0, outs, i + 1), GradientsAt(w0, outs, i);
      forall j | 0 <= j < |cut[i]| ensures acc[cut[i][j]].None? {
        var c := cut[i][j];
        RestIsGroupAndRest(i, c);
        if c !in GroupOutputs(g, cut[i]) {
          HiddenHasNone(g, Reference(w0), cut, Seed(g, outs, |outs|), i, c);
        }
      }
      SweepSkipped(g, Reference(w0), cut[i], acc);
      forall v ensures v in Flatten(cut[i..]) <==> v in cut[i] || v in Flatten(cut[i + 1..]) {
        RestIsGroupAndRest(i, v);
      }
      NothingToRecord(i, acc, Reference(w0));
      BoundaryGrows(i);
    }

    lemma NothingToRecord(i: nat, acc: seq<Grad>, lin: map<nat, Linear>)
      requires CutCalls(g, cut) && i < |cut| && |acc| == |g.nodes|
      requires forall j | 0 <= j < |cut[i]| :: acc[cut[i][j]].None?
      ensures forall tensors :: Differentiated(map[], tensors, cut[i], lin, acc)
    {
    }

    // ---- Reverse execution ----

    /** What a training pass from `w0` leaves for the reverse pass. */
    ghost predicate Taped(tape: Tape, w0: World)
      requires IsCut(g, cut) && CutCalls(g, cut)
      reads this, store
    {
      && Valid() && Neat(tape, map[])
      && BuffersHold(WorldAt(w0, |cut|).bufs) && Holds(tape.values, WorldAt(w0, |cut|).env)
      && (forall v: nat :: v in tape.values <==> Boundary(g, cut, v, |cut|))
      && Snapshots(tape, w0, |cut|, true)
    }

    lemma TrainingIsTaped(tape: Tape, live: seq<GraphValue>, w0: World)
      requires IsCut(g, cut) && CutCalls(g, cut) && Between(tape, live, w0, |cut|, true)
      ensures Taped(tape, w0)
    {
    }

    /** The gradients a whole-graph sweep over the uncut model's run gives. */
    ghost function WholeGraphGradients(w0: World, outs: seq<Grad>): (r: seq<Grad>)
      requires WellFormed(g) && |outs| == |g.output|
      ensures |r| == |g.nodes|
    {
      UncutGradients(g, ops, w0, outs)
    }

    lemma WalkIsSweep(w0: World, outs: seq<Grad>)
      requires WellFormed(g) && IsCut(g, cut) && CutCalls(g, cut) && |outs| == |g.output|
      ensures GradientsAt(w0, outs, 0) == WholeGraphGradients(w0, outs)
    {
      hide Linearize, Sweep, SweepFrom, Seed;
      assert cut[0..] == cut;
      SweepFromIsSweep(g, Reference(w0), cut, Seed(g, outs, |outs|), 0);
    }

    /** Output gradients are accumulated onto the values the graph returns. */
    method SeedGradients(outs: seq<Grad>, ghost tape: Tape) returns (pending: Gathered)
      requires WellFormed(g) && |outs| == |g.output| && Neat(tape, map[])
      modifies store
      ensures Neat(tape, pending)
      ensures forall v | 0 <= v < |g.nodes| :: GradOf(pending, store.tensors, v) == Seed(g, outs, |outs|)[v]
      ensures GradsOnly(old(store.owner), old(store.tensors), store.owner, store.tensors)
    {
      pending := map[];
      for k := 0 to |g.output|
        invariant Neat(tape, pending)
        invariant forall v | 0 <= v < |g.nodes| :: GradOf(pending, store.tensors, v) == Seed(g, outs, k)[v]
        invariant GradsOnly(old(store.owner), old(store.tensors), store.owner, store.tensors)
      {
        hide Neat, GradOf;
        pending := Accumulate(g.output[k], outs[k], tape, pending);
      }
    }

    /** Whatever is still pending is freed, whether or not anyone asked for it. */
    method DropPending(ghost tape: Tape, pending: Gathered)
      requires Neat(tape, pending)
      modifies store
      ensures Neat(tape, map[])
      ensures GradsOnly(old(store.owner), old(store.tensors), store.owner, store.tensors)
    {
      var todo := pending;
      while todo.Keys != {}
        invariant Neat(tape, todo)
        invariant GradsOnly(old(store.owner), old(store.tensors), store.owner, store.tensors)
        decreases |todo.Keys|
      {
        hide Neat, GradOf;
        ghost var keys := todo.Keys;
        var v :| v in todo.Keys;
        var _, rest := Settle(v, tape, todo);
        todo := rest;
        assert todo.Keys == keys - {v};
      }
      assert todo == map[];
    }

    /** The groups are walked from last to first, until one that has to be recomputed fails the budget check. */
    method WalkBack(tape: Tape, pending: Gathered, room: nat -> bool, ghost w0: World, ghost outs: seq<Grad>)
      returns (ok: bool, tape': Tape, pending': Gathered, ghost stop: nat)
      requires WellFormed(g) && IsCut(g, cut) && CutCalls(g, cut) && ParamsApart(g) && |outs| == |g.output|
      requires Reversing(tape, pending, w0, outs, |cut|)
      modifies this`gradients, store
      ensures stop <= |cut| && Reversing(tape', pending', w0, outs, stop)
      ensures ok ==> stop == 0
      ensures !ok ==> stop > 0 && !room(stop - 1)
    {
      tape', pending', ok, stop := tape, pending, true, |cut|;
      for i := |cut| downto 0
        invariant ok && stop == i && Reversing(tape', pending', w0, outs, i)
      {
        hide Reversing, WellFormed, IsCut, CutCalls, ParamsApart, GroupOutputs;
        if exists v :: v in GroupOutputs(g, cut[i]) && v in pending' {
          if !room(i) {
            ok := false;
            return;
          }
          tape', pending' := ReverseGroup(i, tape', pending', w0, outs);
        } else {
          SkipGroup(tape', pending', w0, outs, i);
        }
        stop := i;
      }
    }

    /**
     The reverse pass, group by group. Whatever the cut, every placeholder and every trainable
     parameter gets exactly the gradient of the whole-graph sweep; buffers and RNG are untouched,
     and every gradient under way is freed. So they are when the pass is refused at the group before
     `stop`; the groups from `stop` on then have their final gradients and the others have none.
     */
    method Reverse(tape: Tape, outs: seq<Grad>, room: nat -> bool, ghost w0: World)
      returns (ok: bool, results: map<nat, Grad>, tape': Tape, ghost stop: nat)
      requires WellFormed(g) && IsCut(g, cut) && CutCalls(g, cut) && ParamsApart(g) && |outs| == |g.output|
      requires Taped(tape, w0)
      requires forall i | 0 <= i < |gradients| :: gradients[i] == map[]
      modifies this`gradients, store
      ensures ok ==> results.Keys == Placeholders(g)
      ensures ok ==> forall v | v in results && v < |g.nodes| :: results[v] == WholeGraphGradients(w0, outs)[v]
      ensures if ok then stop == 0 else stop > 0 && !room(stop - 1)
      ensures Valid() && Neat(tape', map[]) && BuffersHold(WorldAt(w0, |cut|).bufs)
      ensures stop <= |cut| && GradientsFrom(gradients, store.tensors, stop, Reference(w0), WholeGraphGradients(w0, outs))
    {
      hide Run, WellFormed, IsCut, ParamsApart, BuffersApart, Tidy, Reference, GradOf, WholeGraphGradients, Placeholders, Stored, Snapped, AllStored, Seed;
      ghost var t, owner, before := TablesOf(tape, map[]), store.owner, store.tensors;
      var pending := SeedGradients(outs, tape);
      KitGrads(t, tape.rngs, owner, before, store.owner, store.tensors, w0, |cut|, Reference(w0), GradientsAt(w0, outs, |cut|));
      ok, tape', pending, stop := WalkBack(tape, pending, room, w0, outs);
      WalkIsSweep(w0, outs);
      Entries(store.owner, TablesOf(tape', pending));
      results := map[];
      if ok { results := Collect(pending, w0, outs); }
      t, owner, before := TablesOf(tape', pending), store.owner, store.tensors;
      DropPending(tape', pending);
      KitGrads(t, tape'.rngs, owner, before, store.owner, store.tensors, w0, stop, Reference(w0), GradientsAt(w0, outs, stop));
      GradientsStay(gradients, store.tensors, w0, outs, stop, stop);
    }

    method Collect(pending: Gathered, ghost w0: World, ghost outs: seq<Grad>) returns (results: map<nat, Grad>)
      requires WellFormed(g) && IsCut(g, cut) && CutCalls(g, cut) && |outs| == |g.output|
      requires Gathers(pending, store.tensors, 0, GradientsAt(w0, outs, 0))
      requires forall v | v in pending && pending[v].Some? :: pending[v].value in store.tensors
      ensures results.Keys == Placeholders(g)
      ensures forall v | v in results && v < |g.nodes| :: results[v] == GradientsAt(w0, outs, 0)[v]
    {
      var tensors := store.tensors;
      results := map v | v in Placeholders(g) ::
        if v in pending && pending[v].Some? then Some(tensors[pending[v].value]) else None;
      assert cut[0..] == cut;
    }

    method DropSnapshot(j: nat, b: nat, tape: Tape) returns (tape': Tape)
      requires Neat(tape, map[]) && j < |tape.snapshots| && b in tape.snapshots[j]
      modifies store
      ensures Neat(tape', map[])
      ensures tape' == tape.(snapshots := tape.snapshots[j := tape.snapshots[j] - {b}])
      ensures RecordsKept(old(store.owner), old(store.tensors), store.owner, store.tensors)
    {
      hide Tidy;
      ghost var t := TablesOf(tape, map[]);
      Entries(store.owner, t);
      store.Free(tape.snapshots[j][b]);
      tape' := tape.(snapshots := tape.snapshots[j := tape.snapshots[j] - {b}]);
      Remove(old(store.owner), t, TablesOf(tape', map[]), SnapshotOf(j, b));
    }

    method DropRow(j: nat, tape: Tape) returns (tape': Tape)
      requires Neat(tape, map[]) && j < |tape.snapshots|
      modifies store
      ensures Neat(tape', map[]) && tape' == tape.(snapshots := tape.snapshots[j := map[]])
      ensures RecordsKept(old(store.owner), old(store.tensors), store.owner, store.tensors)
    {
      hide Neat;
      tape' := tape;
      ghost var row := tape.snapshots[j];
      while tape'.snapshots[j].Keys != {}
        invariant Neat(tape', map[]) && |tape'.snapshots| == |tape.snapshots|
        invariant tape' == tape.(snapshots := tape.snapshots[j := row])
        invariant RecordsKept(old(store.owner), old(store.tensors), store.owner, store.tensors)
        decreases |row.Keys|
      {
        ghost var keys := row.Keys;
        var b :| b in tape'.snapshots[j].Keys;
        tape' := DropSnapshot(j, b, tape');
        row := tape'.snapshots[j];
        assert row.Keys == keys - {b};
      }
      assert row == map[];
    }

    method DropSnapshots(tape: Tape) returns (tape': Tape)
      requires Neat(tape, map[])
      modifies store
      ensures Neat(tape', map[]) && tape'.values == tape.values && tape'.rngs == tape.rngs
      ensures forall j | 0 <= j < |tape'.snapshots| :: tape'.snapshots[j] == map[]
      ensures RecordsKept(old(store.owner), old(store.tensors), store.owner, store.tensors)
    {
      tape' := tape;
      for j := 0 to |tape.snapshots|
        invariant Neat(tape', map[]) && tape'.values == tape.values && tape'.rngs == tape.rngs
        invariant |tape'.snapshots| == |tape.snapshots|
        invariant forall k | 0 <= k < j :: tape'.snapshots[k] == map[]
        invariant RecordsKept(old(store.owner), old(store.tensors), store.owner, store.tensors)
      {
        hide Neat;
        tape' := DropRow(j, tape');
      }
    }

    method DropValues(tape: Tape) returns (tape': Tape)
      requires Neat(tape, map[])
      modifies store
      ensures Neat(tape', map[]) && tape' == tape.(values := map[])
      ensures RecordsKept(old(store.owner), old(store.tensors), store.owner, store.tensors)
    {
      tape' := tape;
      ghost var values := tape.values;
      while tape'.values.Keys != {}
        invariant Neat(tape', map[]) && tape' == tape.(values := values)
        invariant RecordsKept(old(store.owner), old(store.tensors), store.owner, store.tensors)
        decreases |values.Keys|
      {
        hide Neat;
        ghost var keys := values.Keys;
        var v :| v in tape'.values.Keys;
        tape' := DropValue(v, tape', map[]);
        values := tape'.values;
        assert values.Keys == keys - {v};
      }
      assert values == map[];
    }

    lemma RecordsHold(t: Tables, owner: map<nat, Owner>, before: map<nat, real>, owner': map<nat, Owner>, after: map<nat, real>,
                      bufs: map<nat, real>, n: nat, lin: map<nat, Linear>, acc: seq<Grad>)
      requires CutCalls(g, cut) && Tidy(owner, t) && RecordsKept(owner, before, owner', after) && n <= |cut| && |acc| == |g.nodes|
      requires AllStored(t.buffers, before, bufs)
      ensures AllStored(t.buffers, after, bufs)
      ensures GradientsFrom(t.gradients, before, n, lin, acc) ==> GradientsFrom(t.gradients, after, n, lin, acc)
    {
      hide Tidy, Differentiated;
      Entries(owner, t);
      if GradientsFrom(t.gradients, before, n, lin, acc) {
        forall j | n <= j < |cut| ensures Differentiated(t.gradients[j], after, cut[j], lin, acc) {
          DifferentiatedKept(t.gradients[j], before, after, cut[j], lin, acc);
        }
      }
    }

    /** The tape of a pass is freed: afterwards only buffers and parameter gradients are held, all as they were. */
    method ReleaseTape(tape: Tape, ghost bufs: map<nat, real>, ghost n: nat, ghost lin: map<nat, Linear>, ghost acc: seq<Grad>)
      requires Valid() && Neat(tape, map[]) && BuffersHold(bufs) && n <= |cut| && |acc| == |g.nodes|
      modifies store
      ensures Valid() && Neat(Tape(map[], [], []), map[]) && BuffersHold(bufs)
      ensures old(GradientsFrom(gradients, store.tensors, n, lin, acc)) ==> GradientsFrom(gradients, store.tensors, n, lin, acc)
    {
      hide Tidy, WellFormed, IsCut, BuffersApart, AllStored, GradientsFrom;
      ghost var t, owner, before := TablesOf(tape, map[]), store.owner, store.tensors;
      var rest := DropValues(tape);
      rest := DropSnapshots(rest);
      SameEntries(store.owner, TablesOf(rest, map[]), TablesOf(Tape(map[], [], []), map[]));
      RecordsHold(t, owner, before, store.owner, store.tensors, bufs, n, lin, acc);
    }

    /**
     One training step. Whatever the cut, outputs, input gradients, parameter gradients, buffers
     and RNG are those of the uncut model. Afterwards, also when either pass was refused, the
     store holds nothing but the records' buffers and parameter gradients; the groups from `stop` on
     have their final gradients, and the others none.
     */
    method Train(inputs: map<nat, real>, outs: seq<Grad>, forth: nat -> bool, back: nat -> bool, ghost bufs: map<nat, real>)
      returns (ran: bool, ok: bool, result: seq<real>, results: map<nat, Grad>, ghost stop: nat)
      requires Valid() && Neat(Tape(map[], [], []), map[]) && BuffersHold(bufs) && ParamsApart(g)
      requires inputs.Keys == Placeholders(g) && |outs| == |g.output|
      requires forall i | 0 <= i < |gradients| :: gradients[i] == map[]
      modifies this`buffers, this`gradients, this`rng, store
      ensures Valid() && Neat(Tape(map[], [], []), map[])
      ensures ran <==> forall i | 0 <= i < |cut| :: forth(i)
      ensures ok ==> ran
      ensures ran ==> if ok then stop == 0 else 0 < stop && !back(stop - 1)
      ensures !ran ==> gradients == old(gradients) && stop < |cut| && !forth(stop)
                       && BuffersHold(WorldAt(World(inputs, bufs, old(rng)), stop).bufs)
      ensures ran ==> result == ArgValues(g.output, UncutRun(World(inputs, bufs, old(rng))).env)
      ensures ran ==> rng == UncutRun(World(inputs, bufs, old(rng))).rng
      ensures ran ==> BuffersHold(UncutRun(World(inputs, bufs, old(rng))).bufs)
      ensures ok ==> results.Keys == Placeholders(g)
      ensures ok ==> forall v | v in results && v < |g.nodes| :: results[v] == WholeGraphGradients(World(inputs, bufs, old(rng)), outs)[v]
      ensures ran ==> stop <= |cut| && GradientsFrom(gradients, store.tensors, stop, Reference(World(inputs, bufs, old(rng))),
                                                     WholeGraphGradients(World(inputs, bufs, old(rng)), outs))
      ensures ran ==> exists es, ls, grad ::
                Trained(g, ops, cut, trainable, World(inputs, bufs, old(rng)), outs, es, ls, grad, result, rng, buffers, gradients, store.tensors, stop)
                && (ok ==> forall v | v in results && v < |grad| :: results[v] == grad[v])
    {
      hide Run, WellFormed, IsCut, BuffersApart, ParamsApart, Neat, Placeholders, WholeGraphGradients, Reference, GradientsFrom, AllStored, Taped, UncutRun,
        Trained, Evaluated;
      ghost var w0 := World(inputs, bufs, rng);
      var tape, live;
      ran, result, tape, live, stop := Execute(inputs, true, forth, bufs);
      ok, results := false, map[];
      if !ran { return; }
      IsUncutRun(w0);
      TrainingIsTaped(tape, live, w0);
      ok, results, stop := Differentiate(tape, outs, back, w0);
      ghost var es, ls, grad := IsTrained(w0, outs, result, stop);
    }

    /** What the uncut sweep computes is what the chain rule says of the trace. */
    lemma IsTrained(w0: World, outs: seq<Grad>, result: seq<real>, from: nat)
      returns (es: map<nat, Effect>, ls: map<nat, Linear>, grad: seq<Grad>)
      requires WellFormed(g) && IsCut(g, cut) && CutCalls(g, cut) && |outs| == |g.output| && from <= |cut|
      requires BuffersHold(UncutRun(w0).bufs) && rng == UncutRun(w0).rng && result == ArgValues(g.output, UncutRun(w0).env)
      requires GradientsFrom(gradients, store.tensors, from, Reference(w0), WholeGraphGradients(w0, outs))
      ensures Trained(g, ops, cut, trainable, w0, outs, es, ls, grad, result, rng, buffers, gradients, store.tensors, from)
      ensures grad == WholeGraphGradients(w0, outs)
    {
      hide Run, Linearize, Sweep, Seed, WellFormed, IsCut, Evaluated, Trace.ChainRule, AllStored, Differentiated;
      IsUncutRun(w0);
      es, ls := IsEvaluated(w0, result);
      Trace.SweepIsChainRule(g, ls, outs);
      grad := WholeGraphGradients(w0, outs);
      IsWholeGraph(w0, outs);
      assert |grad| == |g.nodes|;
      forall i, j, k | from <= i < |cut| && 0 <= j < |cut[i]| && 0 <= k < |g.nodes[cut[i][j]].params|
        ensures PlaceRecorded(g, trainable, ls, grad, gradients[i], store.tensors, cut[i][j], k)
      {
        PlaceIsRecorded(ls, grad, gradients[i], cut[i], j, k);
      }
    }

    lemma IsWholeGraph(w0: World, outs: seq<Grad>)
      requires WellFormed(g) && IsCut(g, cut) && |outs| == |g.output|
      ensures AllCalls(g, Calls(g, |g.nodes|)) && Reference(w0) == Linearize(g, ops, Calls(g, |g.nodes|), w0)
      ensures WholeGraphGradients(w0, outs)
           == Sweep(g, Linearize(g, ops, Calls(g, |g.nodes|), w0), Calls(g, |g.nodes|), Seed(g, outs, |outs|))
    {
      hide Run, Linearize, Sweep, Seed;
      CallsAreCalls(g);
    }

    lemma PlaceIsRecorded(ls: map<nat, Linear>, grad: seq<Grad>, m: Handles, ids: seq<nat>, j: nat, k: nat)
      requires AllCalls(g, ids) && |grad| == |g.nodes| && j < |ids| && k < |g.nodes[ids[j]].params|
      requires Differentiated(m, store.tensors, ids, ls, grad)
      ensures PlaceRecorded(g, trainable, ls, grad, m, store.tensors, ids[j], k)
    {
      var c := ids[j];
      assert c in ids;
      assert Recorded(m, store.tensors, g.nodes[c].params[k], ParamGradient(ls, grad, c, k));
    }

    /** The backward pass and the release of the tape. */
    method Differentiate(tape: Tape, outs: seq<Grad>, back: nat -> bool, ghost w0: World)
      returns (ok: bool, results: map<nat, Grad>, ghost stop: nat)
      requires WellFormed(g) && IsCut(g, cut) && CutCalls(g, cut) && ParamsApart(g) && |outs| == |g.output| && Taped(tape, w0)
      requires forall i | 0 <= i < |gradients| :: gradients[i] == map[]
      modifies this`gradients, store
      ensures Valid() && Neat(Tape(map[], [], []), map[]) && BuffersHold(UncutRun(w0).bufs)
      ensures if ok then stop == 0 else 0 < stop && !back(stop - 1)
      ensures stop <= |cut| && GradientsFrom(gradients, store.tensors, stop, Reference(w0), WholeGraphGradients(w0, outs))
      ensures ok ==> results.Keys == Placeholders(g)
      ensures ok ==> forall v | v in results && v < |g.nodes| :: results[v] == WholeGraphGradients(w0, outs)[v]
    {
      hide Run, WellFormed, IsCut, BuffersApart, ParamsApart, Neat, Placeholders, WholeGraphGradients, Reference, GradientsFrom, AllStored, UncutRun, Taped;
      IsUncutRun(w0);
      var rest;
      ok, results, rest, stop := Reverse(tape, outs, back, w0);
      ReleaseTape(rest, WorldAt(w0, |cut|).bufs, stop, Reference(w0), WholeGraphGradients(w0, outs));
    }

    lemma IsUncutRun(w0: World)
      requires IsCut(g, cut)
      ensures UncutRun(w0) == WorldAt(w0, |cut|)
      ensures AllCalls(g, Calls(g, |g.nodes|)) && UncutRun(w0) == Run(g, ops, Calls(g, |g.nodes|), w0)
    {
      hide Run;
      AllOfCut();
    }

    ghost function UncutRun(w0: World): World {
      UncutOf(g, ops, w0)
    }

    // ---- From one training step to the next ----

    method DropGradient(i: nat, p: nat)
      requires Neat(Tape(map[], [], []), map[]) && i < |gradients| && p in gradients[i]
      modifies this`gradients, store
      ensures Neat(Tape(map[], [], []), map[]) && gradients == old(gradients)[i := old(gradients)[i] - {p}]
      ensures BuffersOnly(old(store.owner), old(store.tensors), store.owner, store.tensors)
    {
      hide Tidy;
      ghost var none := Tape(map[], [], []);
      ghost var t := TablesOf(none, map[]);
      Entries(store.owner, t);
      store.Free(gradients[i][p]);
      gradients := gradients[i := gradients[i] - {p}];
      Remove(old(store.owner), t, TablesOf(none, map[]), ParamGrad(i, p));
    }

    method DropGradients(i: nat)
      requires Neat(Tape(map[], [], []), map[]) && i < |gradients|
      modifies this`gradients, store
      ensures Neat(Tape(map[], [], []), map[]) && gradients == old(gradients)[i := map[]]
      ensures BuffersOnly(old(store.owner), old(store.tensors), store.owner, store.tensors)
    {
      ghost var row := gradients[i];
      while gradients[i].Keys != {}
        invariant Neat(Tape(map[], [], []), map[]) && |gradients| == |old(gradients)| && gradients == old(gradients)[i := row]
        invariant BuffersOnly(old(store.owner), old(store.tensors), store.owner, store.tensors)
        decreases |row.Keys|
      {
        hide Neat;
        ghost var keys := row.Keys;
        var p :| p in gradients[i].Keys;
        DropGradient(i, p);
        row := gradients[i];
        assert row.Keys == keys - {p};
      }
      assert row == map[];
    }

    /** Once a step or a zero_grad has consumed the recorded gradients, the store holds exactly the buffers. */
    method ClearGradients(ghost bufs: map<nat, real>)
      requires Valid() && Neat(Tape(map[], [], []), map[]) && BuffersHold(bufs)
      modifies this`gradients, store
      ensures Valid() && Neat(Tape(map[], [], []), map[]) && BuffersHold(bufs) && forall i | 0 <= i < |gradients| :: gradients[i] == map[]
    {
      hide Tidy, WellFormed, IsCut, BuffersApart, Stored;
      ghost var t, owner, before := TablesOf(Tape(map[], [], []), map[]), store.owner, store.tensors;
      for i := 0 to |gradients|
        invariant Neat(Tape(map[], [], []), map[]) && |gradients| == |old(gradients)|
        invariant forall j | 0 <= j < i :: gradients[j] == map[]
        invariant BuffersOnly(owner, before, store.owner, store.tensors)
      {
        hide Neat;
        DropGradients(i);
      }
      BuffersStay(t, owner, before, store.owner, store.tensors, bufs);
    }

    /** The handles in the records' buffer tables. */
    ghost function BufferHandles(): set<nat>
      reads this
    {
      set i, b | 0 <= i < |buffers| && b in buffers[i] :: buffers[i][b]
    }

    /** The handles in the records' gradient tables. */
    ghost function GradientHandles(): set<nat>
      reads this
    {
      set i, p | 0 <= i < |gradients| && p in gradients[i] :: gradients[i][p]
    }

    /** Between passes the live handles are exactly the buffers and the recorded gradients. */
    lemma LiveExactly()
      requires store.Valid() && Neat(Tape(map[], [], []), map[])
      ensures store.tensors.Keys == BufferHandles() + GradientHandles()
      ensures (forall i | 0 <= i < |gradients| :: gradients[i] == map[]) ==> store.tensors.Keys == BufferHandles()
    {
      ghost var t := TablesOf(Tape(map[], [], []), map[]);
      forall h | h in store.tensors ensures h in BufferHandles() + GradientHandles() {
        assert t.At(store.owner[h]) == Some(h);
        assert t.At(store.owner[h]).Some?;
      }
      forall h | h in BufferHandles() ensures h in store.tensors {
        var i, b :| 0 <= i < |buffers| && b in buffers[i] && buffers[i][b] == h;
        assert t.At(BufferOf(i, b)) == Some(h);
      }
      forall h | h in GradientHandles() ensures h in store.tensors {
        var i, p :| 0 <= i < |gradients| && p in gradients[i] && gradients[i][p] == h;
        assert t.At(ParamGrad(i, p)) == Some(h);
      }
    }

    /** The runtime after its weights were replaced: the records, the store and the RNG stay, the operators compute something else. */
    constructor Reweighted(prev: Runtime, ops: Operators)
      requires prev.Valid() && prev.Neat(Tape(map[], [], []), map[])
      ensures this.g == prev.g && this.ops == ops && this.cut == prev.cut && this.trainable == prev.trainable && this.store == prev.store
      ensures buffers == prev.buffers && gradients == prev.gradients && rng == prev.rng
      ensures Valid() && Neat(Tape(map[], [], []), map[])
    {
      g, cut, trainable, store := prev.g, prev.cut, prev.trainable, prev.store;
      buffers, gradients, rng := prev.buffers, prev.gradients, prev.rng;
      this.ops := ops;
      new;
      SameEntries(store.owner, prev.TablesOf(Tape(map[], [], []), map[]), TablesOf(Tape(map[], [], []), map[]));
    }
  }

  /** Buffers were neither changed nor freed. */
  ghost predicate BuffersOnly(owner: map<nat, Owner>, before: map<nat, real>, owner': map<nat, Owner>, after: map<nat, real>) {
    forall h | h in owner && owner[h].BufferOf? && h in before ::
      h in owner' && owner'[h] == owner[h] && h in after && after[h] == before[h]
  }

  lemma BuffersStay(t: Tables, owner: map<nat, Owner>, before: map<nat, real>, owner': map<nat, Owner>, after: map<nat, real>,
                    bufs: map<nat, real>)
    requires Tidy(owner, t) && BuffersOnly(owner, before, owner', after) && AllStored(t.buffers, before, bufs)
    ensures AllStored(t.buffers, after, bufs)
  {
    hide Tidy;
    Entries(owner, t);
  }

  ghost function UncutOf(g: Graph, ops: Operators, w0: World): World {
    CallsAreCalls(g);
    Run(g, ops, Calls(g, |g.nodes|), w0)
  }

  ghost function UncutGradients(g: Graph, ops: Operators, w0: World, outs: seq<Grad>): (r: seq<Grad>)
    requires WellFormed(g) && |outs| == |g.output|
    ensures |r| == |g.nodes|
  {
    CallsAreCalls(g);
    var all := Calls(g, |g.nodes|);
    Sweep(g, Linearize(g, ops, all, w0), all, Seed(g, outs, |outs|))
  }

  // ---- Whole trainings ----

  /** One training step: its inputs and output gradients, what the operators compute with the weights of the moment, and which groups pass the budget check. */
  datatype Iteration = Iteration(inputs: map<nat, real>, outs: seq<Grad>, ops: Operators, forth: nat -> bool, back: nat -> bool)

  ghost predicate Fits(g: Graph, s: Iteration) {
    s.inputs.Keys == Placeholders(g) && |s.outs| == |g.output|
  }

  /** What the uncut model starts step `k` with. */
  ghost function UncutBefore(g: Graph, steps: seq<Iteration>, k: nat, bufs: map<nat, real>, rng: int): World
    requires k < |steps|
  {
    if k == 0 then World(steps[0].inputs, bufs, rng)
    else
      var w := UncutOf(g, steps[k - 1].ops, UncutBefore(g, steps, k - 1, bufs, rng));
      World(steps[k].inputs, w.bufs, w.rng)
  }

  /** The buffers and the RNG after `k` steps of the uncut model. */
  ghost function UncutAfter(g: Graph, steps: seq<Iteration>, k: nat, bufs: map<nat, real>, rng: int): World
    requires k <= |steps|
  {
    if k == 0 then World(map[], bufs, rng) else UncutOf(g, steps[k - 1].ops, UncutBefore(g, steps, k - 1, bufs, rng))
  }

  datatype Returned = Returned(outputs: seq<real>, gradients: map<nat, Grad>)

  /** What step `k` of the uncut model returns. */
  ghost predicate UncutReturns(g: Graph, steps: seq<Iteration>, k: nat, bufs: map<nat, real>, rng: int, x: Returned)
    requires k < |steps|
  {
    WellFormed(g) && Fits(g, steps[k]) && StepReturns(g, steps[k], UncutBefore(g, steps, k, bufs, rng), x)
  }

  /** What a step of the uncut model that starts from `w0` returns. */
  ghost predicate StepReturns(g: Graph, s: Iteration, w0: World, x: Returned)
    requires WellFormed(g) && Fits(g, s)
  {
    && x.outputs == ArgValues(g.output, UncutOf(g, s.ops, w0).env)
    && x.gradients.Keys == Placeholders(g)
    && forall v | v in x.gradients && v < |g.nodes| :: x.gradients[v] == UncutGradients(g, s.ops, w0, s.outs)[v]
  }

  /** How a training step ends: with its gradients consumed, or with a pass refused, after which the job has failed. */
  datatype Ending = Consumed | ForwardRefused | BackwardRefused

  /**
   What is left when step `s`, started from `w0`, ends. A refused forward pass leaves the buffers
   as the groups before the refused one left them. A refused backward pass leaves the buffers of
   the whole forward pass, and exactly the final gradients of the groups after the refused one.
   */
  ghost predicate Left(r: Runtime, s: Iteration, w0: World, ending: Ending, stop: nat)
    requires r.Valid() && Fits(r.g, s)
    reads r, r.store
  {
    match ending
    case Consumed =>
      && (forall i | 0 <= i < |r.gradients| :: r.gradients[i] == map[])
      && r.BuffersHold(UncutOf(r.g, r.ops, w0).bufs) && r.rng == UncutOf(r.g, r.ops, w0).rng
    case ForwardRefused =>
      && (forall i | 0 <= i < |r.gradients| :: r.gradients[i] == map[])
      && stop < |r.cut| && !s.forth(stop) && r.BuffersHold(r.WorldAt(w0, stop).bufs)
    case BackwardRefused =>
      && 0 < stop <= |r.cut| && !s.back(stop - 1)
      && r.BuffersHold(UncutOf(r.g, r.ops, w0).bufs) && r.rng == UncutOf(r.g, r.ops, w0).rng
      && r.GradientsFrom(r.gradients, r.store.tensors, stop, r.Reference(w0), r.WholeGraphGradients(w0, s.outs))
  }

  /** One training step; if neither pass is refused its gradients are consumed. */
  method TrainStep(r: Runtime, s: Iteration, ghost w0: World) returns (ending: Ending, x: Returned, ghost stop: nat)
    requires r.Valid() && r.Neat(Tape(map[], [], []), map[]) && r.BuffersHold(w0.bufs) && ParamsApart(r.g) && r.ops == s.ops
    requires forall i | 0 <= i < |r.gradients| :: r.gradients[i] == map[]
    requires Fits(r.g, s) && w0.env == s.inputs && w0.rng == r.rng
    modifies r`buffers, r`gradients, r`rng, r.store
    ensures r.Valid() && r.Neat(Tape(map[], [], []), map[]) && Left(r, s, w0, ending, stop)
    ensures ending == ForwardRefused <==> exists i: nat :: i < |r.cut| && !s.forth(i)
    ensures ending == Consumed ==> WellFormed(r.g) && StepReturns(r.g, s, w0, x)
  {
    hide Run, WellFormed, IsCut, BuffersApart, ParamsApart, Placeholders, AllStored, Tidy, UncutOf, UncutGradients, Runtime.Neat,
      Runtime.GradientsFrom, Runtime.Reference;
    var ran, ok, outputs, gradients;
    ran, ok, outputs, gradients, stop := r.Train(s.inputs, s.outs, s.forth, s.back, w0.bufs);
    assert w0 == World(s.inputs, w0.bufs, w0.rng);
    x := Returned(outputs, gradients);
    ending := if !ran then ForwardRefused else if !ok then BackwardRefused else Consumed;
    if ok { r.ClearGradients(UncutOf(r.g, s.ops, w0).bufs); }
  }

  /**
   Training steps one after the other, with new weights before each and the gradients consumed
   after each, until one is refused. Each returns what the same step of the uncut model returns. If
   none is refused the live handles are then exactly the buffers, holding what the uncut model has;
   otherwise they are the buffers and the gradients the refused step recorded.
   */
  method TrainFor(start: Runtime, steps: seq<Iteration>, ghost bufs: map<nat, real>)
    returns (r: Runtime, results: seq<Returned>, done: nat, ending: Ending, ghost stop: nat)
    requires start.Valid() && start.Neat(Tape(map[], [], []), map[]) && start.BuffersHold(bufs) && ParamsApart(start.g)
    requires forall i | 0 <= i < |start.gradients| :: start.gradients[i] == map[]
    requires forall k | 0 <= k < |steps| :: Fits(start.g, steps[k])
    modifies start.store
    ensures done == |results| <= |steps| && r.g == start.g && r.cut == start.cut && r.store == start.store
    ensures forall k | 0 <= k < done :: UncutReturns(start.g, steps, k, bufs, start.rng, results[k])
    ensures done == |steps| <==> ending == Consumed
    ensures r.Valid() && r.Neat(Tape(map[], [], []), map[]) && r.store.tensors.Keys == r.BufferHandles() + r.GradientHandles()
    ensures ending == Consumed ==> r.store.tensors.Keys == r.BufferHandles()
    ensures ending == Consumed ==> r.BuffersHold(UncutAfter(start.g, steps, done, bufs, start.rng).bufs)
    ensures ending == Consumed ==> r.rng == UncutAfter(start.g, steps, done, bufs, start.rng).rng
    ensures ending != Consumed ==> Fits(start.g, steps[done]) && r.ops == steps[done].ops
    ensures ending != Consumed ==> Left(r, steps[done], UncutBefore(start.g, steps, done, bufs, start.rng), ending, stop)
  {
    hide Run, WellFormed, IsCut, BuffersApart, ParamsApart, Placeholders, AllStored, Tidy, UncutOf, UncutGradients, Runtime.Neat, Runtime.BufferHandles,
      Runtime.GradientHandles, StepReturns, Runtime.GradientsFrom, Runtime.Reference;
    r, results, done, ending, stop := start, [], 0, Consumed, 0;
    while done < |steps|
      invariant done == |results| <= |steps| && r.g == start.g && r.cut == start.cut && r.store == start.store && ending == Consumed
      invariant r.Valid() && r.Neat(Tape(map[], [], []), map[]) && forall i | 0 <= i < |r.gradients| :: r.gradients[i] == map[]
      invariant r.BuffersHold(UncutAfter(start.g, steps, done, bufs, start.rng).bufs) && r.rng == UncutAfter(start.g, steps, done, bufs, start.rng).rng
      invariant forall k | 0 <= k < done :: UncutReturns(start.g, steps, k, bufs, start.rng, results[k])
    {
      ghost var w0 := UncutBefore(start.g, steps, done, bufs, start.rng);
      assert Fits(start.g, steps[done]);
      r := new Runtime.Reweighted(r, steps[done].ops);
      var x;
      ending, x, stop := TrainStep(r, steps[done], w0);
      if ending != Consumed {
        r.LiveExactly();
        return;
      }
      results, done := results + [x], done + 1;
    }
    r.LiveExactly();
  }
}
