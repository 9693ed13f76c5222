/**
 The leader's residency table: reports arrive in any order, any number of times, from any
 generation.
 */
module Residency {
  import opened Graph

  datatype BlockState = Writing | Ready | Migrating | Lost

  /** A handle as reported. A lease of zero marks a freed block. */
  datatype Handle = Handle(owner: nat, generation: nat, state: BlockState, lease: nat, token: nat)

  function Longer(a: nat, b: nat): nat {
    if a >= b then a else b
  }

  /** What one report does to the block's entry. */
  function Merged(old_: Option<Handle>, h: Handle): Handle {
    if old_.None? then h
    else
      var o := old_.value;
      if o.lease == 0 then o
      else if h.generation == o.generation && h.lease != 0 then
        var lease := Longer(o.lease, h.lease);
        if o.state == Ready && h.state == Writing then o.(lease := lease) else h.(lease := lease)
      else if h.generation >= o.generation then h
      else o
  }

  class ResidencyTable {
    var blocks: map<nat, Handle>

    function Entry(id: nat): Option<Handle>
      reads this
    {
      if id in blocks then Some(blocks[id]) else None
    }

    /**
     The first report of a block is recorded, and nothing replaces a freed one. Otherwise a newer
     generation replaces an older one and an older one is ignored; of two reports of one generation a
     freed one wins, and else the later one, with the longer lease, unless it would make a ready block
     a block in writing.
     */
    method RegisterBlock(id: nat, handle: Handle)
      modifies this
      ensures blocks == old(blocks)[id := Merged(old(Entry(id)), handle)]
      ensures id in blocks && blocks - {id} == old(blocks) - {id}
      ensures id !in old(blocks) ==> blocks[id] == handle
      ensures id in old(blocks) ==>
                var o, longest := old(blocks)[id], if old(blocks)[id].lease >= handle.lease then old(blocks)[id].lease else handle.lease;
                if o.lease == 0 || handle.generation < o.generation then blocks[id] == o
                else if handle.generation > o.generation || handle.lease == 0 then blocks[id] == handle
                else if o.state == Ready && handle.state == Writing then blocks[id] == o.(lease := longest)
                else blocks[id] == handle.(lease := longest)
    {
      var h := handle;
      if id in blocks {
        var o := blocks[id];
        if o.lease == 0 {
          assert blocks[id := o] == blocks;
          return;
        }
        if h.generation == o.generation && h.lease != 0 {
          blocks := blocks[id := o.(lease := Longer(o.lease, h.lease))];
          h := h.(lease := blocks[id].lease);
          if o.state == Ready && h.state == Writing { return; }
        }
      }
      if id !in blocks || h.generation >= blocks[id].generation {
        blocks := blocks[id := h];
      } else {
        assert blocks[id := blocks[id]] == blocks;
      }
    }

    /** Every block of a lost node is marked lost; nothing else changes. */
    method LoseNode(node: nat)
      modifies this
      ensures blocks.Keys == old(blocks).Keys
      ensures forall id | id in blocks ::
                blocks[id] == if old(blocks)[id].owner == node then old(blocks)[id].(state := Lost) else old(blocks)[id]
    {
      blocks := map id | id in blocks :: if blocks[id].owner == node then blocks[id].(state := Lost) else blocks[id];
    }

    /**
     The migration compare-and-set. It answers Ok exactly when generation, token and state are
     right; it has recorded the new owner if and only if, besides, the block had not been freed.
     */
    method CompareAndSet(id: nat, h: Handle, previous: nat) returns (ok: bool)
      modifies this
      ensures ok == (id in old(blocks) && old(blocks)[id].generation == previous && old(blocks)[id].token == h.token
                     && h.generation == previous + 1 && h.state == Ready)
      ensures !ok ==> blocks == old(blocks)
      ensures ok ==> blocks == if old(blocks)[id].lease != 0 then old(blocks)[id := h] else old(blocks)
      ensures ok ==> (id in blocks && blocks[id] == h <==> old(blocks)[id].lease != 0)
    {
      ok := id in blocks && blocks[id].generation == previous && blocks[id].token == h.token
            && h.generation == previous + 1 && h.state == Ready;
      if ok {
        RegisterBlock(id, h);
        assert old(blocks)[id := old(blocks)[id]] == old(blocks);
      }
    }
  }

  /**
   A block is reported and then freed; a migration that finished meanwhile publishes its copy. It
   is told Ok, and the entry is still the freed one.
   */
  method PublishAfterFree(id: nat, h: Handle, owner: nat) returns (ok: bool, entry: Option<Handle>)
    ensures ok && entry == Some(h.(lease := 0))
  {
    var table := new ResidencyTable;
    table.blocks := map[];
    table.RegisterBlock(id, h);
    table.RegisterBlock(id, h.(lease := 0));
    assert table.blocks[id] == h.(lease := 0);
    ok := table.CompareAndSet(id, h.(owner := owner, generation := h.generation + 1, state := Ready), h.generation);
    entry := table.Entry(id);
  }

  // ---- Reports of one generation ----

  /** The order of reports of one block. */
  function Fold(start: Option<Handle>, reports: seq<Handle>): Option<Handle> {
    if reports == [] then start else Some(Merged(Fold(start, reports[..|reports| - 1]), reports[|reports| - 1]))
  }

  /** What readers of the table see. */
  datatype View = Absent | Freed | Live(ready: bool, lease: nat)

  function ViewOf(e: Option<Handle>): View {
    if e.None? then Absent else if e.value.lease == 0 then Freed else Live(e.value.state == Ready, e.value.lease)
  }

  predicate AtGeneration(reports: seq<Handle>, g: nat) {
    forall i | 0 <= i < |reports| :: reports[i].generation == g && (reports[i].state == Writing || reports[i].state == Ready)
  }

  function Longest(reports: seq<Handle>): nat {
    if reports == [] then 0 else Longer(Longest(reports[..|reports| - 1]), reports[|reports| - 1].lease)
  }

  predicate AnyFreed(reports: seq<Handle>) {
    exists i :: 0 <= i < |reports| && reports[i].lease == 0
  }

  predicate AnyReady(reports: seq<Handle>) {
    exists i :: 0 <= i < |reports| && reports[i].state == Ready
  }

  lemma AnyStep(reports: seq<Handle>)
    requires reports != []
    ensures AnyFreed(reports) <==> AnyFreed(reports[..|reports| - 1]) || reports[|reports| - 1].lease == 0
    ensures AnyReady(reports) <==> AnyReady(reports[..|reports| - 1]) || reports[|reports| - 1].state == Ready
  {
    var n := |reports| - 1;
    assert forall i | 0 <= i < n :: reports[..n][i] == reports[i];
    if AnyFreed(reports[..n]) { var i :| 0 <= i < n && reports[..n][i].lease == 0; assert reports[i].lease == 0; }
    if AnyReady(reports[..n]) { var i :| 0 <= i < n && reports[..n][i].state == Ready; assert reports[i].state == Ready; }
    if AnyFreed(reports) { var i :| 0 <= i <= n && reports[i].lease == 0; if i < n { assert reports[..n][i].lease == 0; } }
    if AnyReady(reports) { var i :| 0 <= i <= n && reports[i].state == Ready; if i < n { assert reports[..n][i].state == Ready; } }
  }

  /** The join: freed if anybody says so, ready if anybody does, with the longest lease. */
  function Join(reports: seq<Handle>): View {
    if reports == [] then Absent
    else if AnyFreed(reports) then Freed
    else Live(AnyReady(reports), Longest(reports))
  }

  /** Folding reports of one generation computes their join. */
  lemma {:induction false} FoldIsJoin(reports: seq<Handle>, g: nat)
    requires AtGeneration(reports, g)
    ensures ViewOf(Fold(None, reports)) == Join(reports)
    ensures reports != [] ==> Fold(None, reports).Some? && Fold(None, reports).value.generation == g
    ensures reports != [] && Fold(None, reports).value.lease != 0 ==>
              Fold(None, reports).value.state == Ready || Fold(None, reports).value.state == Writing
  {
    if reports != [] {
      var n := |reports| - 1;
      FoldIsJoin(reports[..n], g);
      hide AnyFreed, AnyReady;
      AnyStep(reports);
      if n == 0 { NoneYet(reports[..n]); }
    }
  }

  predicate OneOwner(reports: seq<Handle>, owner: nat, token: nat) {
    forall i | 0 <= i < |reports| :: reports[i].owner == owner && reports[i].token == token
  }

  /** While nobody says the block is freed, reports of one owner fold to the handle with the joined state and lease. */
  lemma {:induction false} FoldIsHandle(reports: seq<Handle>, g: nat, owner: nat, token: nat)
    requires AtGeneration(reports, g) && OneOwner(reports, owner, token) && reports != [] && !AnyFreed(reports)
    ensures Fold(None, reports) == Some(Handle(owner, g, if AnyReady(reports) then Ready else Writing, Longest(reports), token))
  {
    var n := |reports| - 1;
    AnyStep(reports);
    assert reports[n].lease != 0;
    if n == 0 {
      NoneYet(reports[..n]);
    } else {
      FoldIsHandle(reports[..n], g, owner, token);
      NotFreed(reports[..n]);
    }
  }

  lemma NotFreed(reports: seq<Handle>)
    requires reports != [] && !AnyFreed(reports)
    ensures Longest(reports) != 0
  {
    LongestIs(reports);
  }

  lemma NoneYet(reports: seq<Handle>)
    requires reports == []
    ensures !AnyFreed(reports) && !AnyReady(reports) && Longest(reports) == 0
  {
  }

  lemma {:induction false} LongestIs(reports: seq<Handle>)
    ensures forall i | 0 <= i < |reports| :: reports[i].lease <= Longest(reports)
    ensures reports != [] ==> exists i :: 0 <= i < |reports| && reports[i].lease == Longest(reports)
  {
    if reports != [] {
      var n := |reports| - 1;
      LongestIs(reports[..n]);
      assert forall i | 0 <= i < n :: reports[..n][i] == reports[i];
      if n > 0 && Longest(reports[..n]) > reports[n].lease {
        var i :| 0 <= i < n && reports[..n][i].lease == Longest(reports[..n]);
        assert reports[i].lease == Longest(reports);
      } else {
        assert reports[n].lease == Longest(reports);
      }
    }
  }

  /** Only which reports arrive matters, not their order or how often; for one owner this is so of the whole handle. */
  lemma OrderIrrelevant(a: seq<Handle>, b: seq<Handle>, g: nat)
    requires AtGeneration(a, g) && AtGeneration(b, g)
    requires forall h :: h in a <==> h in b
    ensures ViewOf(Fold(None, a)) == ViewOf(Fold(None, b))
    ensures forall owner, token | OneOwner(a, owner, token) && !AnyFreed(a) :: Fold(None, a) == Fold(None, b)
  {
    hide Fold, Longest;
    FoldIsJoin(a, g);
    FoldIsJoin(b, g);
    LongestIs(a);
    LongestIs(b);
    SameFacts(a, b);
    SameFacts(b, a);
    assert a == [] <==> b == [] by {
      if a != [] { assert a[0] in b; }
      if b != [] { assert b[0] in a; }
    }
    forall owner, token | OneOwner(a, owner, token) && !AnyFreed(a) ensures Fold(None, a) == Fold(None, b) {
      if a == [] {
        assert a == b;
      } else {
        forall i | 0 <= i < |b| ensures b[i].owner == owner && b[i].token == token { assert b[i] in a; }
        FoldIsHandle(a, g, owner, token);
        FoldIsHandle(b, g, owner, token);
      }
    }
  }

  lemma SameFacts(a: seq<Handle>, b: seq<Handle>)
    requires forall h | h in a :: h in b
    ensures AnyFreed(a) ==> AnyFreed(b)
    ensures AnyReady(a) ==> AnyReady(b)
    ensures a != [] ==> Longest(a) <= Longest(b)
  {
    hide Longest;
    LongestIs(a);
    LongestIs(b);
    forall i | 0 <= i < |a| ensures exists j :: 0 <= j < |b| && b[j] == a[i] {
      assert a[i] in b;
    }
  }

  // ---- Across generations ----

  datatype Change = Report(h: Handle) | NodeLost(node: nat)

  function After(e: Option<Handle>, c: Change): Option<Handle> {
    match c
    case Report(h) => Some(Merged(e, h))
    case NodeLost(node) => if e.Some? && e.value.owner == node then Some(e.value.(state := Lost)) else e
  }

  function Changed(e: Option<Handle>, cs: seq<Change>): Option<Handle> {
    if cs == [] then e else After(Changed(e, cs[..|cs| - 1]), cs[|cs| - 1])
  }

  /** Whatever arrives, a recorded generation never goes back, and a freed block stays freed. */
  lemma {:induction false} NeverBackNeverRevived(e: Option<Handle>, cs: seq<Change>)
    requires e.Some?
    ensures Changed(e, cs).Some? && Changed(e, cs).value.generation >= e.value.generation
    ensures e.value.lease == 0 ==> Changed(e, cs).value.lease == 0 && Changed(e, cs).value.generation == e.value.generation
                                   && Changed(e, cs).value.owner == e.value.owner
  {
    if cs != [] {
      NeverBackNeverRevived(e, cs[..|cs| - 1]);
    }
  }
}
