/**
 Ownership of store handles. Every live handle belongs to exactly one entry of one of
 the runtime's tables, and every table entry names a live handle: nothing dangles and
 nothing leaks.
 */
module Ledger {
  import opened Graph

  datatype Owner =
    | ValueOf(v: nat)
    | BufferOf(i: nat, b: nat)
    | SnapshotOf(i: nat, b: nat)
    | PendingGrad(v: nat)
    | ParamGrad(i: nat, p: nat)

  type Handles = map<nat, nat>

  datatype Tables = Tables(
    values: Handles,
    snapshots: seq<Handles>,
    pending: map<nat, Option<nat>>,
    buffers: seq<Handles>,
    gradients: seq<Handles>)
  {
    function At(o: Owner): Option<nat> {
      match o
      case ValueOf(v) => if v in values then Some(values[v]) else None
      case BufferOf(i, b) => if i < |buffers| && b in buffers[i] then Some(buffers[i][b]) else None
      case SnapshotOf(i, b) => if i < |snapshots| && b in snapshots[i] then Some(snapshots[i][b]) else None
      case PendingGrad(v) => if v in pending then pending[v] else None
      case ParamGrad(i, p) => if i < |gradients| && p in gradients[i] then Some(gradients[i][p]) else None
    }
  }

  function Put(m: Handles, k: nat, h: nat): Handles {
    m[k := h]
  }

  ghost predicate Tidy(owner: map<nat, Owner>, t: Tables) {
    && (forall h | h in owner :: t.At(owner[h]) == Some(h))
    && (forall o | t.At(o).Some? :: t.At(o).value in owner && owner[t.At(o).value] == o)
  }

  ghost predicate DifferAt(t: Tables, t': Tables, o: Owner) {
    forall o' | o' != o :: t'.At(o') == t.At(o')
  }

  lemma Insert(owner: map<nat, Owner>, t: Tables, t': Tables, o: Owner, h: nat)
    requires Tidy(owner, t) && h !in owner && t.At(o).None? && DifferAt(t, t', o) && t'.At(o) == Some(h)
    ensures Tidy(owner[h := o], t')
  {
  }

  lemma Remove(owner: map<nat, Owner>, t: Tables, t': Tables, o: Owner)
    requires Tidy(owner, t) && t.At(o).Some? && DifferAt(t, t', o) && t'.At(o).None?
    ensures Tidy(owner - {t.At(o).value}, t')
  {
  }

  lemma Replace(owner: map<nat, Owner>, t: Tables, t': Tables, o: Owner, h: nat)
    requires Tidy(owner, t) && h !in owner && t.At(o).Some? && DifferAt(t, t', o) && t'.At(o) == Some(h)
    ensures Tidy(owner[h := o] - {t.At(o).value}, t')
  {
  }

  /** What tidiness says of each table. */
  lemma Entries(owner: map<nat, Owner>, t: Tables)
    requires Tidy(owner, t)
    ensures forall v | v in t.values :: t.values[v] in owner && owner[t.values[v]] == ValueOf(v)
    ensures forall i: nat, b | i < |t.snapshots| && b in t.snapshots[i] ::
              t.snapshots[i][b] in owner && owner[t.snapshots[i][b]] == SnapshotOf(i, b)
    ensures forall v | v in t.pending && t.pending[v].Some? ::
              t.pending[v].value in owner && owner[t.pending[v].value] == PendingGrad(v)
    ensures forall i: nat, b | i < |t.buffers| && b in t.buffers[i] ::
              t.buffers[i][b] in owner && owner[t.buffers[i][b]] == BufferOf(i, b)
    ensures forall i: nat, p | i < |t.gradients| && p in t.gradients[i] ::
              t.gradients[i][p] in owner && owner[t.gradients[i][p]] == ParamGrad(i, p)
  {
    forall v | v in t.values ensures t.values[v] in owner && owner[t.values[v]] == ValueOf(v) {
      assert t.At(ValueOf(v)) == Some(t.values[v]);
    }
    forall i: nat, b | i < |t.snapshots| && b in t.snapshots[i]
      ensures t.snapshots[i][b] in owner && owner[t.snapshots[i][b]] == SnapshotOf(i, b)
    {
      assert t.At(SnapshotOf(i, b)) == Some(t.snapshots[i][b]);
    }
    forall v | v in t.pending && t.pending[v].Some?
      ensures t.pending[v].value in owner && owner[t.pending[v].value] == PendingGrad(v)
    {
      assert t.At(PendingGrad(v)) == t.pending[v];
    }
    forall i: nat, b | i < |t.buffers| && b in t.buffers[i]
      ensures t.buffers[i][b] in owner && owner[t.buffers[i][b]] == BufferOf(i, b)
    {
      assert t.At(BufferOf(i, b)) == Some(t.buffers[i][b]);
    }
    forall i: nat, p | i < |t.gradients| && p in t.gradients[i]
      ensures t.gradients[i][p] in owner && owner[t.gradients[i][p]] == ParamGrad(i, p)
    {
      assert t.At(ParamGrad(i, p)) == Some(t.gradients[i][p]);
    }
  }

  /** Opening an empty row in the buffer and gradient tables owns nothing new. */
  lemma OpenRow(owner: map<nat, Owner>, t: Tables)
    requires Tidy(owner, t)
    ensures Tidy(owner, t.(buffers := t.buffers + [map[]], gradients := t.gradients + [map[]]))
  {
    var t' := t.(buffers := t.buffers + [map[]], gradients := t.gradients + [map[]]);
    assert forall o :: t'.At(o) == t.At(o);
  }

  lemma OpenSnapshot(owner: map<nat, Owner>, t: Tables)
    requires Tidy(owner, t)
    ensures Tidy(owner, t.(snapshots := t.snapshots + [map[]]))
  {
    var t' := t.(snapshots := t.snapshots + [map[]]);
    assert forall o :: t'.At(o) == t.At(o);
  }

  lemma SameEntries(owner: map<nat, Owner>, t: Tables, t': Tables)
    requires Tidy(owner, t) && forall o :: t'.At(o) == t.At(o)
    ensures Tidy(owner, t')
  {
  }

  // ---- Stores ----

  /** The id-to-tensor map that the tiered store refines. */
  class RamStore {
    var tensors: map<nat, real>
    var next: nat
    ghost var owner: map<nat, Owner>

    ghost predicate Valid()
      reads this
    {
      owner.Keys == tensors.Keys && forall h | h in tensors :: h < next
    }

    constructor ()
      ensures Valid() && tensors == map[]
    {
      tensors, next, owner := map[], 0, map[];
    }

    method Offload(x: real, ghost o: Owner) returns (h: nat)
      requires Valid()
      modifies this
      ensures Valid() && h !in old(tensors)
      ensures tensors == old(tensors)[h := x] && owner == old(owner)[h := o]
    {
      h := next;
      next := next + 1;
      tensors, owner := tensors[h := x], owner[h := o];
    }

    method Free(h: nat)
      requires Valid()
      modifies this
      ensures Valid()
      ensures tensors == old(tensors) - {h} && owner == old(owner) - {h}
    {
      tensors, owner := tensors - {h}, owner - {h};
    }
  }
}
