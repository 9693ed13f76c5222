/**
 The tiered tensor store: every handle's bytes are either resident in VRAM or held in RAM
 blocks. Whatever the allocator reports and whichever block operations fail, the store is a
 map from ids to bytes.
 */
module TensorStore {
  import opened Graph
  import opened Blocks
  import opened Eviction

  datatype Handle = Handle(
    size: nat, resident: Option<seq<byte>>, blocks: seq<nat>, dirty: bool, nextUse: Option<nat>, remaining: nat,
    cost: real, reuse: nat)

  /**
   What the world outside answers at one moment: the safe VRAM headroom, which block put raises,
   whether the allocator takes a tensor, whether reading and freeing blocks succeeds, and whether
   blocks end up on another node.
   */
  datatype Weather = Weather(safe: nat, fault: Option<nat>, room: bool, readable: bool, freeable: bool, remote: bool)

  function BlocksFor(size: nat, blockBytes: nat): nat
    requires blockBytes > 0
  {
    (size + blockBytes - 1) / blockBytes
  }

  /** At such a moment `size` bytes can be written to blocks: no put they need raises. */
  predicate Stores(w: Weather, size: nat, blockBytes: nat)
    requires blockBytes > 0
  {
    w.fault.Some? ==> BlocksFor(size, blockBytes) <= w.fault.value
  }

  type Fabric = map<nat, seq<byte>>

  function Piece(fabric: Fabric, b: nat): seq<byte> {
    if b in fabric then fabric[b] else []
  }

  function Pieces(fabric: Fabric, blocks: seq<nat>): seq<byte> {
    if blocks == [] then [] else Pieces(fabric, blocks[..|blocks| - 1]) + Piece(fabric, blocks[|blocks| - 1])
  }

  function Bytes(h: Handle, fabric: Fabric): seq<byte> {
    if h.resident.Some? then h.resident.value else Pieces(fabric, h.blocks)
  }

  lemma {:induction false} PiecesSame(fabric: Fabric, fabric': Fabric, blocks: seq<nat>)
    requires forall i | 0 <= i < |blocks| :: Piece(fabric', blocks[i]) == Piece(fabric, blocks[i])
    ensures Pieces(fabric', blocks) == Pieces(fabric, blocks)
  {
    if blocks != [] {
      PiecesSame(fabric, fabric', blocks[..|blocks| - 1]);
    }
  }

  /** Between calls a handle is never both resident and backed by blocks. */
  predicate OneTier(h: Handle) {
    !h.dirty && (h.resident.Some? ==> h.blocks == [] && |h.resident.value| == h.size)
  }

  /** And it is complete, unless a failed free has taken its blocks. */
  predicate Whole(h: Handle, fabric: Fabric) {
    OneTier(h) && |Bytes(h, fabric)| == h.size
  }

  /** Blocks belong to one handle, once. */
  ghost predicate Owned(id: nat, blocks: seq<nat>, fabric: Fabric, owner: map<nat, nat>) {
    && (forall i | 0 <= i < |blocks| :: blocks[i] in fabric && blocks[i] in owner && owner[blocks[i]] == id)
    && (forall i, j | 0 <= i < j < |blocks| :: blocks[i] != blocks[j])
  }

  // ---- Resident bytes ----

  function ResidentSize(h: Handle): nat {
    if h.resident.Some? then h.size else 0
  }

  ghost function ResidentTotal(table: map<nat, Handle>, ids: set<nat>): nat
    requires ids <= table.Keys
    decreases |ids|
  {
    if ids == {} then 0
    else
      var id :| id in ids;
      ResidentTotal(table, ids - {id}) + ResidentSize(table[id])
  }

  lemma {:induction false} TotalTakeOut(table: map<nat, Handle>, ids: set<nat>, id: nat)
    requires ids <= table.Keys && id in ids
    ensures ResidentTotal(table, ids) == ResidentTotal(table, ids - {id}) + ResidentSize(table[id])
    decreases |ids|
  {
    var x :| x in ids && ResidentTotal(table, ids) == ResidentTotal(table, ids - {x}) + ResidentSize(table[x]);
    if x != id {
      TotalTakeOut(table, ids - {x}, id);
      TotalTakeOut(table, ids - {id}, x);
      assert ids - {x} - {id} == ids - {id} - {x};
    }
  }

  lemma {:induction false} TotalSame(table: map<nat, Handle>, table': map<nat, Handle>, ids: set<nat>)
    requires ids <= table.Keys && ids <= table'.Keys
    requires forall id | id in ids :: ResidentSize(table'[id]) == ResidentSize(table[id])
    ensures ResidentTotal(table', ids) == ResidentTotal(table, ids)
    decreases |ids|
  {
    if ids != {} {
      var id :| id in ids;
      TotalTakeOut(table, ids, id);
      TotalTakeOut(table', ids, id);
      TotalSame(table, table', ids - {id});
    }
  }

  lemma TotalUpdate(table: map<nat, Handle>, id: nat, h: Handle)
    ensures id in table ==> ResidentTotal(table[id := h], table[id := h].Keys) + ResidentSize(table[id])
                            == ResidentTotal(table, table.Keys) + ResidentSize(h)
    ensures id !in table ==> ResidentTotal(table[id := h], table[id := h].Keys) == ResidentTotal(table, table.Keys) + ResidentSize(h)
  {
    var table' := table[id := h];
    TotalTakeOut(table', table'.Keys, id);
    if id in table {
      TotalTakeOut(table, table.Keys, id);
      assert table'.Keys - {id} == table.Keys - {id};
    } else {
      assert table'.Keys - {id} == table.Keys;
    }
    TotalSame(table, table', table'.Keys - {id});
  }

  lemma TotalRemove(table: map<nat, Handle>, id: nat)
    requires id in table
    ensures ResidentTotal(table - {id}, (table - {id}).Keys) + ResidentSize(table[id]) == ResidentTotal(table, table.Keys)
  {
    TotalTakeOut(table, table.Keys, id);
    assert (table - {id}).Keys == table.Keys - {id};
    TotalSame(table, table - {id}, table.Keys - {id});
  }

  // ---- Frames ----

  /** Outside `open`, no record has changed and every block still holds what it held. */
  ghost predicate Same(table: map<nat, Handle>, fabric: Fabric, table': map<nat, Handle>, fabric': Fabric, open: set<nat>) {
    && table'.Keys == table.Keys
    && forall id | id in table && id !in open ::
         table'[id] == table[id]
         && forall i | 0 <= i < |table[id].blocks| :: Piece(fabric', table[id].blocks[i]) == Piece(fabric, table[id].blocks[i])
  }

  lemma SameBytes(table: map<nat, Handle>, fabric: Fabric, table': map<nat, Handle>, fabric': Fabric, open: set<nat>)
    requires Same(table, fabric, table', fabric', open)
    ensures forall id | id in table && id !in open :: Bytes(table'[id], fabric') == Bytes(table[id], fabric)
  {
    forall id | id in table && id !in open ensures Bytes(table'[id], fabric') == Bytes(table[id], fabric) {
      PiecesSame(fabric, fabric', table[id].blocks);
    }
  }

  ghost predicate AllOwned(table: map<nat, Handle>, fabric: Fabric, owner: map<nat, nat>) {
    forall id | id in table :: Owned(id, table[id].blocks, fabric, owner)
  }

  ghost predicate AllWhole(table: map<nat, Handle>, fabric: Fabric, lost: set<nat>, open: set<nat>) {
    && (forall id | id in table && id !in open && id !in lost :: Whole(table[id], fabric))
    && (forall id | id in table && id !in open :: OneTier(table[id]) && |Bytes(table[id], fabric)| <= table[id].size)
  }

  lemma WholeKept(table: map<nat, Handle>, fabric: Fabric, table': map<nat, Handle>, fabric': Fabric, lost: set<nat>, open: set<nat>)
    requires Same(table, fabric, table', fabric', open) && AllWhole(table, fabric, lost, open)
    ensures AllWhole(table', fabric', lost, open)
  {
    SameBytes(table, fabric, table', fabric', open);
  }

  /** A fresh block joins one handle. */
  lemma PutOwned(table: map<nat, Handle>, fabric: Fabric, owner: map<nat, nat>, id: nat, b: nat, piece: seq<byte>)
    requires AllOwned(table, fabric, owner) && id in table && b !in fabric && b !in owner
    ensures var h := table[id];
            var table', fabric' := table[id := h.(blocks := h.blocks + [b])], fabric[b := piece];
            && AllOwned(table', fabric', owner[b := id]) && Same(table, fabric, table', fabric', {id})
            && Pieces(fabric', h.blocks + [b]) == Pieces(fabric, h.blocks) + piece
  {
    hide Pieces;
    var h := table[id];
    var table', fabric', owner' := table[id := h.(blocks := h.blocks + [b])], fabric[b := piece], owner[b := id];
    forall other | other in table' ensures Owned(other, table'[other].blocks, fabric', owner') {
      assert Owned(other, table[other].blocks, fabric, owner);
    }
    forall other, i | other in table && 0 <= i < |table[other].blocks|
      ensures Piece(fabric', table[other].blocks[i]) == Piece(fabric, table[other].blocks[i])
    {
      assert Owned(other, table[other].blocks, fabric, owner);
    }
    PiecesSame(fabric, fabric', h.blocks);
    PiecesAppend(fabric', h.blocks, b);
  }

  lemma PiecesAppend(fabric: Fabric, blocks: seq<nat>, b: nat)
    ensures Pieces(fabric, blocks + [b]) == Pieces(fabric, blocks) + Piece(fabric, b)
  {
    assert (blocks + [b])[..|blocks|] == blocks;
  }

  /** A handle lets go of its blocks: nobody else had them. */
  lemma ReleaseOwned(table: map<nat, Handle>, fabric: Fabric, owner: map<nat, nat>, id: nat, fabric': Fabric)
    requires AllOwned(table, fabric, owner) && id in table
    requires fabric' == fabric || fabric' == fabric - (set b | b in table[id].blocks)
    ensures AllOwned(table[id := table[id].(blocks := [])], fabric', owner)
    ensures Same(table, fabric, table[id := table[id].(blocks := [])], fabric', {id})
  {
    var table' := table[id := table[id].(blocks := [])];
    assert Owned(id, table[id].blocks, fabric, owner);
    forall other | other in table && other != id
      ensures forall i | 0 <= i < |table[other].blocks| :: table[other].blocks[i] !in table[id].blocks
      ensures Owned(other, table[other].blocks, fabric', owner)
    {
      assert Owned(other, table[other].blocks, fabric, owner);
    }
  }

  lemma NoPieces(fabric: Fabric)
    ensures Pieces(fabric, []) == []
  {
  }

  lemma SameStart(table: map<nat, Handle>, fabric: Fabric, open: set<nat>)
    ensures Same(table, fabric, table, fabric, open)
  {
  }

  lemma SameWider(table: map<nat, Handle>, fabric: Fabric, table': map<nat, Handle>, fabric': Fabric, id: nat, open: set<nat>)
    requires Same(table, fabric, table', fabric', {id}) && id in open
    ensures Same(table, fabric, table', fabric', open)
  {
  }

  lemma SameTrans(t0: map<nat, Handle>, f0: Fabric, t1: map<nat, Handle>, f1: Fabric, t2: map<nat, Handle>, f2: Fabric, open: set<nat>)
    requires Same(t0, f0, t1, f1, open) && Same(t1, f1, t2, f2, open)
    ensures Same(t0, f0, t2, f2, open)
  {
  }

  /** Only handles in `ids` may have left VRAM; no handle's bytes have changed. */
  ghost predicate Spilled(t0: map<nat, Handle>, f0: Fabric, t1: map<nat, Handle>, f1: Fabric, ids: set<nat>) {
    && t1.Keys == t0.Keys
    && forall id | id in t0 ::
         && Bytes(t1[id], f1) == Bytes(t0[id], f0) && t1[id].size == t0[id].size && t1[id].dirty == t0[id].dirty
         && (id !in ids ==> t1[id] == t0[id])
         && (t1[id].resident.Some? ==> t1[id] == t0[id])
  }

  lemma SpilledTrans(t0: map<nat, Handle>, f0: Fabric, t1: map<nat, Handle>, f1: Fabric, t2: map<nat, Handle>, f2: Fabric,
                     ids: set<nat>, more: set<nat>)
    requires Spilled(t0, f0, t1, f1, ids) && Spilled(t1, f1, t2, f2, more)
    ensures Spilled(t0, f0, t2, f2, ids + more)
  {
    hide Bytes;
  }

  lemma SpilledStart(table: map<nat, Handle>, fabric: Fabric)
    ensures Spilled(table, fabric, table, fabric, {})
  {
  }

  /** Replacing one record by one with the same bytes. */
  lemma OneSpilled(t0: map<nat, Handle>, f0: Fabric, t1: map<nat, Handle>, f1: Fabric, id: nat, h: Handle)
    requires Same(t0, f0, t1, f1, {id}) && id in t0 && Bytes(h, f1) == Bytes(t0[id], f0)
    requires h.size == t0[id].size && h.dirty == t0[id].dirty && (h == t0[id] || h.resident.None?)
    ensures Spilled(t0, f0, t1[id := h], f1, {id})
  {
    SameBytes(t0, f0, t1, f1, {id});
  }

  lemma OpenMore(table: map<nat, Handle>, fabric: Fabric, lost: set<nat>, open: set<nat>, id: nat)
    requires AllWhole(table, fabric, lost, open)
    ensures AllWhole(table, fabric, lost, open + {id})
  {
  }

  /** A handle is written: with a whole record it is no longer open. */
  lemma Close(table: map<nat, Handle>, fabric: Fabric, owner: map<nat, nat>, lost: set<nat>, open: set<nat>, id: nat, h: Handle)
    requires AllWhole(table, fabric, lost, open + {id}) && AllOwned(table, fabric, owner) && id in table
    requires OneTier(h) && |Bytes(h, fabric)| <= h.size && (id in lost || |Bytes(h, fabric)| == h.size) && (h.blocks == table[id].blocks || h.blocks == [])
    ensures AllWhole(table[id := h], fabric, lost, open) && AllOwned(table[id := h], fabric, owner)
  {
    assert Owned(id, table[id].blocks, fabric, owner);
    forall other | other in table && other != id ensures Owned(other, table[other].blocks, fabric, owner) {
    }
  }

  lemma WholeAt(table: map<nat, Handle>, fabric: Fabric, lost: set<nat>, open: set<nat>, id: nat)
    requires AllWhole(table, fabric, lost, open) && id in table && id !in open
    ensures OneTier(table[id]) && |Bytes(table[id], fabric)| <= table[id].size && (id in lost || Whole(table[id], fabric))
  {
  }

  lemma SpillBytes(h: Handle, h': Handle, fabric: Fabric, fabric': Fabric)
    requires OneTier(h) && h.resident.Some? && !h'.dirty && h'.size == h.size
    requires h' == h || (h'.resident.None? && Pieces(fabric', h'.blocks) == h.resident.value)
    ensures Bytes(h', fabric') == Bytes(h, fabric) && Whole(h', fabric')
  {
  }

  /** The complete handles and their bytes. */
  ghost function ContentsOf(table: map<nat, Handle>, fabric: Fabric, lost: set<nat>): map<nat, seq<byte>> {
    map id | id in table && id !in lost && !table[id].dirty :: Bytes(table[id], fabric)
  }

  lemma SpilledContents(t0: map<nat, Handle>, f0: Fabric, t1: map<nat, Handle>, f1: Fabric, ids: set<nat>, lost: set<nat>)
    requires Spilled(t0, f0, t1, f1, ids)
    ensures ContentsOf(t1, f1, lost) == ContentsOf(t0, f0, lost)
  {
    hide Bytes;
  }

  /** A record that changes nothing but its own tier keeps the contents; completing one adds it. */
  lemma PutContents(t0: map<nat, Handle>, f0: Fabric, t1: map<nat, Handle>, f1: Fabric, id: nat, lost: set<nat>)
    requires Same(t0, f0, t1, f1, {id}) && id in t1 && !t1[id].dirty && id !in lost
    ensures ContentsOf(t1, f1, lost) == ContentsOf(t0, f0, lost)[id := Bytes(t1[id], f1)]
  {
    SameBytes(t0, f0, t1, f1, {id});
  }

  lemma TakeContents(t0: map<nat, Handle>, f0: Fabric, t1: map<nat, Handle>, f1: Fabric, id: nat, lost: set<nat>)
    requires Same(t0, f0, t1, f1, {id}) && id in t1
    ensures ContentsOf(t1 - {id}, f1, lost) == ContentsOf(t0, f0, lost) - {id}
    ensures t1[id].dirty || id in lost ==> ContentsOf(t1, f1, lost) == ContentsOf(t0, f0, lost) - {id}
  {
    hide Bytes;
    SameBytes(t0, f0, t1, f1, {id});
  }

  /** The next of the selected is as it was: the earlier ones are others. */
  lemma NotYet(t0: map<nat, Handle>, f0: Fabric, t1: map<nat, Handle>, f1: Fabric, selected: seq<Candidate>, i: nat, excluded: set<nat>)
    requires i < |selected| && DistinctIds(selected) && Spilled(t0, f0, t1, f1, IdsOf(selected[..i]))
    requires selected[i].id in Evictable(t0, excluded) && selected[i] == CandidateOf(selected[i].id, t0[selected[i].id])
    ensures var id := selected[i].id; id in t1 && t1[id] == t0[id] && t1[id].resident.Some? && t1[id].size == selected[i].size
  {
    hide Bytes;
    assert forall j | 0 <= j < i :: selected[..i][j].id == selected[j].id;
    assert selected[i].id !in IdsOf(selected[..i]);
  }

  lemma StaysOut(t0: map<nat, Handle>, f0: Fabric, t1: map<nat, Handle>, f1: Fabric, id: nat, selected: seq<Candidate>, i: nat)
    requires Spilled(t0, f0, t1, f1, {id}) && i <= |selected|
    requires forall j | 0 <= j < i :: selected[j].id in t0 && t0[selected[j].id].resident.None?
    ensures forall j | 0 <= j < i :: selected[j].id in t1 && t1[selected[j].id].resident.None?
  {
    hide Bytes;
  }

  lemma OnlySelected(t0: map<nat, Handle>, f0: Fabric, t1: map<nat, Handle>, f1: Fabric, ids: set<nat>)
    requires Spilled(t0, f0, t1, f1, ids)
    ensures t1.Keys == t0.Keys
    ensures forall id | id in t0 && t0[id].resident.Some? && t1[id].resident.None? :: id in ids
  {
    hide Bytes;
  }

  lemma SpilledElsewhere(t0: map<nat, Handle>, f0: Fabric, t1: map<nat, Handle>, f1: Fabric, ids: set<nat>, id: nat)
    requires Spilled(t0, f0, t1, f1, ids) && id in t0 && id !in ids
    ensures id in t1 && t1[id] == t0[id] && Bytes(t1[id], f1) == Bytes(t0[id], f0)
  {
  }

  /** An unfinished handle does not count, so working on it changes no contents. */
  lemma SameContents(t0: map<nat, Handle>, f0: Fabric, t1: map<nat, Handle>, f1: Fabric, id: nat, lost: set<nat>)
    requires Same(t0, f0, t1, f1, {id}) && id in t0 && id in t1 && t0[id].dirty && t1[id].dirty
    ensures ContentsOf(t1, f1, lost) == ContentsOf(t0, f0, lost)
  {
    SameBytes(t0, f0, t1, f1, {id});
  }

  lemma AdmitOwned(table: map<nat, Handle>, fabric: Fabric, owner: map<nat, nat>, lost: set<nat>, id: nat, h: Handle)
    requires AllOwned(table, fabric, owner) && AllWhole(table, fabric, lost, {}) && id !in table && h.blocks == []
    ensures AllOwned(table[id := h], fabric, owner) && AllWhole(table[id := h], fabric, lost, {id})
  {
    var table' := table[id := h];
    forall other | other in table' ensures Owned(other, table'[other].blocks, fabric, owner) {
      if other in table { assert Owned(other, table[other].blocks, fabric, owner); }
    }
  }

  /** An open handle may become resident. */
  lemma KeepOwned(table: map<nat, Handle>, fabric: Fabric, owner: map<nat, nat>, lost: set<nat>, id: nat, h: Handle)
    requires AllOwned(table, fabric, owner) && AllWhole(table, fabric, lost, {id}) && id in table && table[id].dirty && h.dirty
    requires h.blocks == table[id].blocks
    ensures AllOwned(table[id := h], fabric, owner) && AllWhole(table[id := h], fabric, lost, {id})
    ensures ContentsOf(table[id := h], fabric, lost) == ContentsOf(table, fabric, lost)
  {
    hide Bytes;
    forall other | other in table ensures Owned(other, table[id := h][other].blocks, fabric, owner) {
      assert Owned(other, table[other].blocks, fabric, owner);
    }
  }

  lemma OneChanged(table: map<nat, Handle>, fabric: Fabric, id: nat, h: Handle)
    requires id in table
    ensures Same(table, fabric, table[id := h], fabric, {id})
  {
  }

  lemma SameThenChanged(t0: map<nat, Handle>, f0: Fabric, t1: map<nat, Handle>, f1: Fabric, id: nat, h: Handle)
    requires Same(t0, f0, t1, f1, {id}) && id in t0
    ensures Same(t0, f0, t1[id := h], f1, {id})
  {
  }

  lemma InContents(table: map<nat, Handle>, fabric: Fabric, lost: set<nat>, id: nat)
    requires id in table && id !in lost && !table[id].dirty
    ensures id in ContentsOf(table, fabric, lost) && ContentsOf(table, fabric, lost)[id] == Bytes(table[id], fabric)
  {
  }

  lemma NotCounted(table: map<nat, Handle>, fabric: Fabric, lost: set<nat>, id: nat)
    requires id in lost
    ensures ContentsOf(table, fabric, lost) - {id} == ContentsOf(table, fabric, lost)
  {
  }

  lemma SameKeys(t0: map<nat, Handle>, f0: Fabric, t1: map<nat, Handle>, f1: Fabric, id: nat)
    requires Same(t0, f0, t1, f1, {id})
    ensures t1.Keys == t0.Keys
  {
  }

  lemma OnlyThis(t0: map<nat, Handle>, t1: map<nat, Handle>, id: nat, h: Handle)
    requires t1 - {id} == t0 - {id}
    ensures t1[id := h] == t0[id := h]
  {
    var a, b := t1[id := h], t0[id := h];
    forall x | x in a ensures x in b && a[x] == b[x] {
      if x != id { assert x in t1 - {id} && (t1 - {id})[x] == t1[x]; }
    }
    forall x | x in b ensures x in a {
      if x != id { assert x in t0 - {id}; }
    }
  }

  lemma NothingProtected(table: map<nat, Handle>, id: nat)
    requires id in table && table[id].resident.None?
    ensures ResidentTotal(table, {id} * table.Keys) == 0
  {
    assert {id} * table.Keys == {id};
    TotalTakeOut(table, {id}, id);
    assert {id} - {id} == {};
    assert ResidentTotal(table, {}) == 0;
  }

  lemma SameRest(t0: map<nat, Handle>, f0: Fabric, t1: map<nat, Handle>, f1: Fabric, id: nat)
    requires Same(t0, f0, t1, f1, {id})
    ensures t1 - {id} == t0 - {id}
  {
  }

  lemma NotInContents(table: map<nat, Handle>, fabric: Fabric, lost: set<nat>, id: nat)
    requires id !in table
    ensures ContentsOf(table, fabric, lost) == ContentsOf(table, fabric, lost) - {id}
  {
  }

  /** A handle that lost its bytes no longer counts. */
  lemma LoseContents(t0: map<nat, Handle>, f0: Fabric, t1: map<nat, Handle>, f1: Fabric, id: nat, lost: set<nat>)
    requires Same(t0, f0, t1, f1, {id}) && id in t1
    ensures ContentsOf(t1, f1, lost + {id}) == ContentsOf(t0, f0, lost) - {id}
  {
    SameBytes(t0, f0, t1, f1, {id});
  }

  lemma LoseWhole(t0: map<nat, Handle>, f0: Fabric, t1: map<nat, Handle>, f1: Fabric, lost: set<nat>, id: nat)
    requires AllWhole(t0, f0, lost, {}) && AllWhole(t1, f1, lost, {id}) && id in t0 && id in t1
    requires t0[id].blocks != [] && t1[id] == t0[id].(blocks := [])
    ensures AllWhole(t1, f1, lost + {id}, {})
  {
  }

  lemma ForgetOwned(table: map<nat, Handle>, fabric: Fabric, owner: map<nat, nat>, lost: set<nat>, id: nat)
    requires AllOwned(table, fabric, owner) && AllWhole(table, fabric, lost, {id})
    ensures AllOwned(table - {id}, fabric, owner) && AllWhole(table - {id}, fabric, lost, {})
  {
  }

  lemma MoreBlocks(size: nat, puts: nat, blockBytes: nat)
    requires blockBytes > 0 && puts * blockBytes < size
    ensures puts < BlocksFor(size, blockBytes) && (puts + 1) * blockBytes == puts * blockBytes + blockBytes
    ensures size - puts * blockBytes <= blockBytes ==> puts + 1 == BlocksFor(size, blockBytes)
  {
    var n := BlocksFor(size, blockBytes);
    assert n * blockBytes + (size + blockBytes - 1) % blockBytes == size + blockBytes - 1;
    if n <= puts { Product(n, puts, blockBytes); }
    if size - puts * blockBytes <= blockBytes && n > puts + 1 { Product(puts + 2, n, blockBytes); }
  }

  lemma Product(a: nat, b: nat, c: nat)
    requires a <= b
    ensures a * c <= b * c
  {
  }

  lemma AllWritten(size: nat, puts: nat, blockBytes: nat)
    requires blockBytes > 0 && (size == puts * blockBytes || puts == BlocksFor(size, blockBytes))
    ensures puts == BlocksFor(size, blockBytes)
  {
    if size == puts * blockBytes {
      var n := BlocksFor(size, blockBytes);
      assert n * blockBytes + (size + blockBytes - 1) % blockBytes == size + blockBytes - 1;
      assert n * blockBytes < (puts + 1) * blockBytes by { assert (puts + 1) * blockBytes == puts * blockBytes + blockBytes; }
      Smaller(n, puts + 1, blockBytes);
      assert puts * blockBytes < (n + 1) * blockBytes by { assert (n + 1) * blockBytes == n * blockBytes + blockBytes; }
      Smaller(puts, n + 1, blockBytes);
    }
  }

  lemma Smaller(a: nat, b: nat, c: nat)
    requires a * c < b * c
    ensures a < b
  {
    if b <= a { Product(b, a, c); }
  }

  /** Taking the blocks away again leaves what was there. */
  lemma WithFresh(fabric: Fabric, blocks: seq<nat>, b: nat, piece: seq<byte>, start: Fabric)
    requires fabric - (set x | x in blocks) == start && b !in fabric
    ensures fabric[b := piece] - (set x | x in blocks + [b]) == start
  {
    var after := fabric[b := piece] - (set x | x in blocks + [b]);
    forall x ensures x in after <==> x in start {
      assert x in start <==> x in fabric - (set x | x in blocks);
    }
    forall x | x in start ensures after[x] == start[x] {
      assert x in fabric - (set x | x in blocks);
    }
  }

  datatype Retention = Retained | Declined | Raised

  /** Why an operation failed. */
  datatype Trouble = Fine | TooSmall | SpillRaised | ReadRaised | FreeRaised

  // ---- What eviction may and will do ----

  function CandidateOf(id: nat, h: Handle): Candidate {
    Candidate(id, h.size, h.nextUse, h.remaining, h.cost, h.reuse)
  }

  /** What may be evicted: resident, complete, and not excluded. */
  ghost function Evictable(table: map<nat, Handle>, excluded: set<nat>): (r: set<nat>)
    ensures r <= table.Keys
  {
    set id | id in table && table[id].resident.Some? && id !in excluded && !table[id].dirty
  }

  /** The cheapest evictable tensors that release enough, and no more than needed; none if all together are not enough. */
  ghost predicate Chosen(table: map<nat, Handle>, step: nat, needed: nat, excluded: set<nat>, selected: seq<Candidate>) {
    && (forall c | c in selected :: c.id in Evictable(table, excluded) && c == AsCandidate(table, c.id))
    && (selected == [] <==> ResidentTotal(table, Evictable(table, excluded)) < needed)
    && (selected != [] ==> Total(selected) >= needed && Total(selected[..|selected| - 1]) < needed)
    && forall id, x | id in Evictable(table, excluded) && id !in IdsOf(selected) && x in selected :: GoesFirst(x, AsCandidate(table, id), step)
  }

  ghost function AsCandidate(table: map<nat, Handle>, id: nat): Candidate
    requires id in table
  {
    var h := table[id];
    Candidate(id, h.size, h.nextUse, h.remaining, h.cost, h.reuse)
  }

  /** The chosen tensors are all colder than the incoming one. */
  predicate AllColder(step: nat, incoming: Candidate, selected: seq<Candidate>) {
    forall i | 0 <= i < |selected| :: Cheaper(selected[i], incoming, step)
  }

  lemma ColderOnFields(step: nat, incoming: Candidate, selected: seq<Candidate>)
    ensures AllColder(step, incoming, selected)
            <==> forall i | 0 <= i < |selected| :: Less(EvictionKey(incoming, step), EvictionKey(selected[i], step))
  {
    hide Less, Cheaper;
    forall i | 0 <= i < |selected| ensures Less(EvictionKey(incoming, step), EvictionKey(selected[i], step)) <==> Cheaper(selected[i], incoming, step) {
      OrderOnFields(selected[i], incoming, step);
    }
  }

  /** The spills of `selected`, one at a time from moment `t` on, all succeed. */
  predicate AllStore(env: nat -> Weather, blockBytes: nat, t: nat, selected: seq<Candidate>)
    requires blockBytes > 0
  {
    forall i | 0 <= i < |selected| :: Stores(env(t + i), selected[i].size, blockBytes)
  }

  /** How many bytes of VRAM may be used at such a moment. */
  function CapacityAt(budget: nat, resident: nat, w: Weather): (r: nat)
    ensures r <= budget && r <= resident + w.safe && (r == budget || r == resident + w.safe)
  {
    if budget <= resident + w.safe then budget else resident + w.safe
  }

  /** What becomes of an incoming value for which `selected` would have to go. */
  ghost predicate RetentionIs(budget: nat, blockBytes: nat, env: nat -> Weather, table: map<nat, Handle>, step: nat, resident: nat, tick: nat,
                              incoming: Candidate, outcome: Retention, selected: seq<Candidate>)
    requires blockBytes > 0
  {
    var w := env(tick);
    var capacity := CapacityAt(budget, resident, w);
    if incoming.size > budget then outcome == Declined && selected == []
    else if resident + incoming.size <= capacity then selected == [] && outcome == if w.room then Retained else Declined
    else
      && Chosen(table, step, resident + incoming.size - capacity, {}, selected)
      && outcome == if selected == [] || !AllColder(step, incoming, selected) then Declined
                    else if !AllStore(env, blockBytes, tick + 1, selected) then Raised
                    else if w.room then Retained else Declined
  }

  lemma RetentionBefore(budget: nat, blockBytes: nat, env: nat -> Weather, table: map<nat, Handle>, id: nat, h: Handle, step: nat, resident: nat,
                        tick: nat, outcome: Retention, selected: seq<Candidate>)
    requires blockBytes > 0 && id !in table && h.resident.None?
    requires RetentionIs(budget, blockBytes, env, table[id := h], step, resident, tick, CandidateOf(id, h), outcome, selected)
    ensures RetentionIs(budget, blockBytes, env, table, step, resident, tick, CandidateOf(id, h), outcome, selected)
  {
    hide Chosen, AllStore, AllColder;
    var capacity := CapacityAt(budget, resident, env(tick));
    if h.size <= budget && resident + h.size > capacity {
      ChosenBefore(table, id, h, step, resident + h.size - capacity, {}, selected);
    }
  }

  /** A handle that is entered without being resident makes no difference. */
  lemma ChosenBefore(table: map<nat, Handle>, id: nat, h: Handle, step: nat, needed: nat, excluded: set<nat>, selected: seq<Candidate>)
    requires id !in table && h.resident.None? && Chosen(table[id := h], step, needed, excluded, selected)
    ensures Chosen(table, step, needed, excluded, selected)
  {
    hide Total, GoesFirst, IdsOf;
    assert Evictable(table[id := h], excluded) == Evictable(table, excluded);
    TotalSame(table, table[id := h], Evictable(table, excluded));
  }

  // ---- The store ----

  class Store {
    const budget: nat
    const blockBytes: nat
    const env: nat -> Weather
    var table: map<nat, Handle>
    var resident: nat
    var fabric: Fabric
    var nextId: nat
    var nextBlock: nat
    var tick: nat
    var step: nat
    ghost var owner: map<nat, nat>
    ghost var lost: set<nat>

    constructor (budget: nat, blockBytes: nat, env: nat -> Weather)
      requires blockBytes > 0
      ensures ValidBut({}) && Contents() == map[] && this.budget == budget && this.env == env
    {
      this.budget, this.blockBytes, this.env := budget, blockBytes, env;
      table, resident, fabric, nextId, nextBlock, tick, step := map[], 0, map[], 0, 0, 0, 0;
      owner, lost := map[], {};
    }

    /** Everything but the handles in `open`, which are being written or evicted. */
    ghost predicate ValidBut(open: set<nat>)
      reads this
    {
      && blockBytes > 0
      && (forall id | id in table || id in lost :: id < nextId)
      && (forall b | b in fabric || b in owner :: b < nextBlock)
      && AllOwned(table, fabric, owner) && AllWhole(table, fabric, lost, open)
      && resident == ResidentTotal(table, table.Keys) && resident <= budget
    }

    /** The abstract value: the complete handles and their bytes. */
    ghost function Contents(): map<nat, seq<byte>>
      reads this
    {
      ContentsOf(table, fabric, lost)
    }

    /** One more block of the handle. */
    method Put(id: nat, piece: seq<byte>, ghost open: set<nat>)
      requires ValidBut(open) && id in open && id in table
      modifies this`table, this`fabric, this`nextBlock, this`owner
      ensures ValidBut(open) && Same(old(table), old(fabric), table, fabric, {id})
      ensures id in table && table[id] == old(table)[id].(blocks := old(table)[id].blocks + [old(nextBlock)])
      ensures Pieces(fabric, table[id].blocks) == Pieces(old(fabric), old(table)[id].blocks) + piece
      ensures old(nextBlock) !in old(fabric) && fabric == old(fabric)[old(nextBlock) := piece]
    {
      hide AllOwned, AllWhole, Same, Pieces, ResidentTotal;
      var b, h := nextBlock, table[id];
      PutOwned(table, fabric, owner, id, b, piece);
      nextBlock := nextBlock + 1;
      fabric, owner := fabric[b := piece], owner[b := id];
      table := table[id := h.(blocks := h.blocks + [b])];
      SameWider(old(table), old(fabric), table, fabric, id, open);
      TotalUpdate(old(table), id, table[id]);
      WholeKept(old(table), old(fabric), table, fabric, lost, open);
    }

    /** The handle lets go of its blocks; those that can be freed are. */
    method Release(id: nat, freed: bool, ghost open: set<nat>)
      requires ValidBut(open) && id in open && id in table
      modifies this`table, this`fabric
      ensures fabric == if freed then old(fabric) - (set b | b in old(table)[id].blocks) else old(fabric)
      ensures ValidBut(open) && Same(old(table), old(fabric), table, fabric, {id})
      ensures id in table && table[id] == old(table)[id].(blocks := [])
    {
      hide AllOwned, AllWhole, Same, Pieces, ResidentTotal;
      var h := table[id];
      if freed { fabric := fabric - (set b | b in h.blocks); }
      table := table[id := h.(blocks := [])];
      ReleaseOwned(old(table), old(fabric), owner, id, fabric);
      SameWider(old(table), old(fabric), table, fabric, id, open);
      TotalUpdate(old(table), id, table[id]);
      WholeKept(old(table), old(fabric), table, fabric, lost, open);
    }

    /**
     Copies `value` into fresh blocks of the handle, unless a put it needs raises. On failure every
     block already written is given back.
     */
    method WriteBacking(id: nat, value: seq<byte>, ghost open: set<nat>) returns (ok: bool)
      requires ValidBut(open) && id in open && id in table && table[id].blocks == []
      modifies this`table, this`fabric, this`nextBlock, this`tick, this`owner
      ensures ValidBut(open) && Same(old(table), old(fabric), table, fabric, {id}) && id in table
      ensures tick == old(tick) + 1 && (ok <==> Stores(env(old(tick)), |value|, blockBytes))
      ensures ok ==> table[id] == old(table)[id].(blocks := table[id].blocks) && Pieces(fabric, table[id].blocks) == value
      ensures ok ==> |table[id].blocks| == BlocksFor(|value|, blockBytes)
      ensures !ok ==> table[id] == old(table)[id]
      ensures !ok && env(old(tick)).freeable ==> fabric == old(fabric)
    {
      hide AllOwned, AllWhole, Same, Pieces, ResidentTotal;
      var weather := env(tick);
      tick := tick + 1;
      assert Pieces(fabric, table[id].blocks) == [] by { NoPieces(fabric); }
      SameStart(table, fabric, {id});
      var offset, puts := 0, 0;
      while offset < |value|
        invariant offset <= |value| && ValidBut(open) && id in table && tick == old(tick) + 1
        invariant Same(old(table), old(fabric), table, fabric, {id})
        invariant table[id] == old(table)[id].(blocks := table[id].blocks)
        invariant Pieces(fabric, table[id].blocks) == value[..offset]
        invariant puts == |table[id].blocks| && (offset == puts * blockBytes || (offset == |value| && puts == BlocksFor(|value|, blockBytes)))
        invariant weather.fault.Some? ==> puts <= weather.fault.value
        invariant fabric - (set b | b in table[id].blocks) == old(fabric)
      {
        hide BlocksFor;
        var size := if |value| - offset <= blockBytes then |value| - offset else blockBytes;
        MoreBlocks(|value|, puts, blockBytes);
        ghost var table1, fabric1 := table, fabric;
        if weather.fault == Some(puts) {
          Release(id, weather.freeable, open);
          SameTrans(old(table), old(fabric), table1, fabric1, table, fabric, {id});
          return false;
        }
        ghost var b := nextBlock;
        Put(id, value[offset..offset + size], open);
        SameTrans(old(table), old(fabric), table1, fabric1, table, fabric, {id});
        WithFresh(fabric1, table1[id].blocks, b, value[offset..offset + size], old(fabric));
        assert value[..offset + size] == value[..offset] + value[offset..offset + size];
        offset, puts := offset + size, puts + 1;
      }
      assert value[..|value|] == value;
      AllWritten(|value|, puts, blockBytes);
      ok := true;
    }

    /** Moves a resident tensor to RAM blocks, unless a put it needs raises; then nothing has changed. */
    method Spill(id: nat, ghost open: set<nat>) returns (ok: bool)
      requires ValidBut(open) && id in table && id !in open && table[id].resident.Some?
      modifies this`table, this`resident, this`fabric, this`nextBlock, this`tick, this`owner
      ensures ValidBut(open) && Spilled(old(table), old(fabric), table, fabric, {id}) && id in table
      ensures tick == old(tick) + 1 && (ok <==> Stores(env(old(tick)), old(table)[id].size, blockBytes))
      ensures ok ==> table[id].resident.None?
      ensures ok ==> table[id] == old(table)[id].(resident := None, blocks := table[id].blocks, cost := if env(tick).remote then 4.0 else 1.0)
      ensures !ok ==> table[id] == old(table)[id] && resident == old(resident)
    {
      hide AllOwned, AllWhole, Same, ResidentTotal, Spilled, Pieces;
      var h := table[id];
      WholeAt(table, fabric, lost, open, id);
      OpenMore(table, fabric, lost, open, id);
      ok := WriteBacking(id, h.resident.value, open + {id});
      ghost var t1 := table;
      var h' := h;
      if ok {
        h' := h.(resident := None, blocks := table[id].blocks, cost := if env(tick).remote then 4.0 else 1.0);
      }
      SpillBytes(h, h', old(fabric), fabric);
      table := table[id := h'];
      TotalUpdate(t1, id, h');
      if ok { resident := resident - h.size; }
      Close(t1, fabric, owner, lost, open, id, h');
      OneSpilled(old(table), old(fabric), t1, fabric, id, h');
    }

    // ---- Eviction ----

    method Candidates(excluded: set<nat>) returns (cs: seq<Candidate>)
      ensures forall c | c in cs :: c.id in Evictable(table, excluded) && c == CandidateOf(c.id, table[c.id])
      ensures forall id | id in Evictable(table, excluded) :: CandidateOf(id, table[id]) in cs
      ensures DistinctIds(cs)
    {
      cs := [];
      var todo := table.Keys;
      while todo != {}
        invariant todo <= table.Keys
        invariant forall c | c in cs :: c.id in Evictable(table, excluded) && c == CandidateOf(c.id, table[c.id]) && c.id !in todo
        invariant forall id | id in Evictable(table, excluded) && id !in todo :: CandidateOf(id, table[id]) in cs
        invariant forall i, j | 0 <= i < j < |cs| :: cs[i].id != cs[j].id
      {
        var id :| id in todo;
        if table[id].resident.Some? && id !in excluded && !table[id].dirty {
          cs := cs + [CandidateOf(id, table[id])];
        }
        todo := todo - {id};
      }
    }

    /** At the last moment a spill raised, of a tensor that is therefore still resident. */
    ghost predicate Stuck()
      reads this
    {
      blockBytes > 0 && tick > 0
      && exists id :: id in table && table[id].resident.Some? && !Stores(env(tick - 1), table[id].size, blockBytes)
    }

    /** Spills the chosen tensors one by one; the first failure ends it. */
    method EvictAll(selected: seq<Candidate>, ghost open: set<nat>, ghost excluded: set<nat>) returns (ok: bool)
      requires ValidBut(open)
      requires forall i | 0 <= i < |selected| :: selected[i].id in Evictable(table, excluded) && selected[i] == CandidateOf(selected[i].id, table[selected[i].id])
      requires forall i | 0 <= i < |selected| :: selected[i].id !in open
      requires DistinctIds(selected)
      modifies this`table, this`resident, this`fabric, this`nextBlock, this`tick, this`owner
      ensures ValidBut(open) && Spilled(old(table), old(fabric), table, fabric, IdsOf(selected))
      ensures ok <==> AllStore(env, blockBytes, old(tick), selected)
      ensures ok ==> tick == old(tick) + |selected|
      ensures ok ==> forall i | 0 <= i < |selected| :: selected[i].id in table && table[selected[i].id].resident.None?
      ensures ok ==> resident + Total(selected) == old(resident)
      ensures !ok ==> old(tick) < tick && Stuck()
    {
      hide AllOwned, AllWhole, ResidentTotal, Total, Bytes, IdsOf, Stores, Spilled, DistinctIds, Evictable, CandidateOf;
      SpilledStart(table, fabric);
      EmptyTotal(selected[..0]);
      for i := 0 to |selected|
        invariant ValidBut(open) && Spilled(old(table), old(fabric), table, fabric, IdsOf(selected[..i]))
        invariant tick == old(tick) + i && resident + Total(selected[..i]) == old(resident)
        invariant forall j | 0 <= j < i :: Stores(env(old(tick) + j), selected[j].size, blockBytes)
        invariant forall j | 0 <= j < i :: selected[j].id in table && table[selected[j].id].resident.None?
      {
        var id := selected[i].id;
        NotYet(old(table), old(fabric), table, fabric, selected, i, excluded);
        ghost var t1, f1, before := table, fabric, resident;
        ok := Spill(id, open);
        StaysOut(t1, f1, table, fabric, id, selected, i);
        SpilledTrans(old(table), old(fabric), t1, f1, table, fabric, IdsOf(selected[..i]), {id});
        NextSelected(selected, i);
        if !ok {
          SpilledWider(old(table), old(fabric), table, fabric, IdsOf(selected[..i + 1]), IdsOf(selected));
          assert !Stores(env(old(tick) + i), selected[i].size, blockBytes);
          return false;
        }
        SpilledSize(t1, f1, table, fabric, id, before, resident);
      }
      assert selected[..|selected|] == selected;
      ok := true;
    }

    /** Picks the cheapest tensors to evict; everything in `open` is still dirty, so it is never among them. */
    method Choose(needed: nat, excluded: set<nat>, ghost open: set<nat>) returns (selected: seq<Candidate>)
      requires needed > 0 && (forall id | id in open && id in table :: table[id].dirty) && ValidBut(open)
      ensures Chosen(table, step, needed, excluded, selected)
      ensures forall i | 0 <= i < |selected| :: selected[i].id in Evictable(table, excluded) && selected[i] == CandidateOf(selected[i].id, table[selected[i].id])
      ensures forall i | 0 <= i < |selected| :: selected[i].id !in open
      ensures DistinctIds(selected) && (selected != [] ==> Total(selected) >= needed)
    {
      hide Rank, Total, GoesFirst, ResidentTotal, AllOwned, AllWhole;
      var cs := Candidates(excluded);
      ghost var left;
      selected, left := SelectEvictions(cs, needed, step);
      AmongCandidates(cs, selected, left);
      forall i | 0 <= i < |selected| ensures selected[i] in cs {
        assert selected[i] in selected;
      }
      assert IdsOf(cs) == Evictable(table, excluded) by {
        forall id | id in Evictable(table, excluded) ensures id in IdsOf(cs) {
          var i :| 0 <= i < |cs| && cs[i] == CandidateOf(id, table[id]);
        }
        forall id | id in IdsOf(cs) ensures id in Evictable(table, excluded) {
          var i :| 0 <= i < |cs| && cs[i].id == id;
          assert cs[i] in cs;
        }
      }
      TotalIsResident(table, cs) by {
        forall i | 0 <= i < |cs| ensures cs[i].id in table && ResidentSize(table[cs[i].id]) == cs[i].size { assert cs[i] in cs; }
      }
      forall id, x | id in Evictable(table, excluded) && id !in IdsOf(selected) && x in selected ensures GoesFirst(x, CandidateOf(id, table[id]), step) {
        LeftOver(cs, selected, left, CandidateOf(id, table[id]));
      }
    }

    method ProtectedBytes(protected: set<nat>) returns (total: nat)
      ensures total == ResidentTotal(table, protected * table.Keys)
    {
      total := 0;
      var todo, done := protected * table.Keys, {};
      while todo != {}
        invariant todo + done == protected * table.Keys && todo !! done
        invariant total == ResidentTotal(table, done)
      {
        var id :| id in todo;
        TotalTakeOut(table, done + {id}, id);
        assert done + {id} - {id} == done;
        if table[id].resident.Some? { total := total + table[id].size; }
        todo, done := todo - {id}, done + {id};
      }
      assert done == protected * table.Keys;
    }

    /**
     Evicts until the allocator reports room for `needed` bytes beyond what is protected. It ends,
     because every round spills something; it never touches a protected tensor, and no bytes change.
     It fails only when all that may still be evicted is not enough, or a spill raised.
     */
    method EnsureCapacity(needed: nat, protected: set<nat>, ghost open: set<nat>) returns (trouble: Trouble, ghost moved: set<nat>)
      requires ValidBut(open) && forall id | id in open && id in table :: table[id].dirty
      modifies this`table, this`resident, this`fabric, this`nextBlock, this`tick, this`owner
      ensures ValidBut(open) && Spilled(old(table), old(fabric), table, fabric, moved) && moved !! protected && tick > old(tick)
      ensures var beyond := needed - ResidentTotal(old(table), protected * old(table).Keys);
              match trouble
              case Fine => env(tick - 1).safe >= beyond
              case TooSmall => env(tick - 1).safe + ResidentTotal(table, Evictable(table, protected)) < beyond
              case SpillRaised => Stuck()
              case _ => false
    {
      hide AllOwned, AllWhole, ResidentTotal, Total, Bytes, Stores;
      var protectedBytes := ProtectedBytes(protected);
      var additional := if needed > protectedBytes then needed - protectedBytes else 0;
      moved := {};
      SpilledStart(table, fabric);
      while true
        invariant ValidBut(open) && Spilled(old(table), old(fabric), table, fabric, moved) && moved !! protected && tick >= old(tick)
        invariant forall id | id in open && id in table :: table[id].dirty
        decreases Evictable(table, protected)
      {
        var safe := env(tick).safe;
        tick := tick + 1;
        if safe >= additional { return Fine, moved; }
        var selected := Choose(additional - safe, protected, open);
        if selected == [] { return TooSmall, moved; }
        ghost var t1, f1, before := table, fabric, Evictable(table, protected);
        var ok := EvictAll(selected, open, protected);
        SpilledTrans(old(table), old(fabric), t1, f1, table, fabric, moved, IdsOf(selected));
        moved := moved + IdsOf(selected);
        if !ok { return SpillRaised, moved; }
        assert selected[0].id in before && selected[0].id !in Evictable(table, protected);
        assert Evictable(table, protected) <= before;
      }
    }

    /**
     Tries to keep an incoming value in VRAM, evicting only colder tensors. Whether it does is
     decided by the budget, the headroom, the keys of the cheapest sufficient tensors and whether
     their spills succeed.
     */
    method TryRetain(id: nat, value: seq<byte>) returns (outcome: Retention, ghost selected: seq<Candidate>)
      requires ValidBut({id}) && id in table && table[id].dirty && table[id].resident.None? && table[id].size == |value| && id !in lost
      modifies this`table, this`resident, this`fabric, this`nextBlock, this`tick, this`owner
      ensures ValidBut({id}) && id in table && tick >= old(tick)
      ensures RetentionIs(budget, blockBytes, env, old(table), step, old(resident), old(tick), CandidateOf(id, old(table)[id]), outcome, selected)
      ensures table[id] == old(table)[id].(resident := if outcome.Retained? then Some(value) else None)
      ensures ContentsOf(table, fabric, lost) == ContentsOf(old(table), old(fabric), lost)
      ensures table.Keys == old(table).Keys
      ensures forall other | other in table && other != id && old(table)[other].resident.Some? && table[other].resident.None? ::
                other in IdsOf(selected) && AllColder(step, CandidateOf(id, old(table)[id]), selected)
    {
      hide AllOwned, AllWhole, ResidentTotal, Total, Bytes, Spilled, Stores, Chosen, AllColder;
      var size := table[id].size;
      selected := [];
      if size > budget { return Declined, selected; }
      var weather := env(tick);
      tick := tick + 1;
      var capacity := CapacityAt(budget, resident, weather);
      if resident + size > capacity {
        var chosen := Choose(resident + size - capacity, {}, {id});
        selected := chosen;
        var colder := AreColder(CandidateOf(id, table[id]), chosen);
        if chosen == [] || !colder {
          return Declined, selected;
        }
        var ok := EvictFor(id, chosen);
        if !ok { return Raised, selected; }
      }
      if !weather.room { return Declined, selected; }
      Keep(id, value);
      outcome := Retained;
    }

    /** Evicts the chosen tensors; the incoming one and all contents stay as they are. */
    method EvictFor(id: nat, chosen: seq<Candidate>) returns (ok: bool)
      requires ValidBut({id}) && id in table && DistinctIds(chosen)
      requires forall i | 0 <= i < |chosen| :: chosen[i].id in Evictable(table, {}) && chosen[i] == CandidateOf(chosen[i].id, table[chosen[i].id])
      requires forall i | 0 <= i < |chosen| :: chosen[i].id !in {id}
      modifies this`table, this`resident, this`fabric, this`nextBlock, this`tick, this`owner
      ensures ValidBut({id}) && id in table && table[id] == old(table)[id] && table.Keys == old(table).Keys && tick >= old(tick)
      ensures ContentsOf(table, fabric, lost) == ContentsOf(old(table), old(fabric), lost)
      ensures forall other | other in table && old(table)[other].resident.Some? && table[other].resident.None? :: other in IdsOf(chosen)
      ensures ok <==> AllStore(env, blockBytes, old(tick), chosen)
      ensures ok ==> resident + Total(chosen) == old(resident)
    {
      hide AllOwned, AllWhole, ResidentTotal, Total, Bytes, Spilled, Stores, Evictable, CandidateOf;
      ok := EvictAll(chosen, {id}, {});
      NotSelected(chosen, id);
      SpilledContents(old(table), old(fabric), table, fabric, IdsOf(chosen), lost);
      SpilledElsewhere(old(table), old(fabric), table, fabric, IdsOf(chosen), id);
      OnlySelected(old(table), old(fabric), table, fabric, IdsOf(chosen));
    }

    /** Whether every key is above the key of the incoming tensor. */
    method AreColder(incoming: Candidate, chosen: seq<Candidate>) returns (colder: bool)
      ensures colder == AllColder(step, incoming, chosen)
    {
      hide Less, Cheaper, EvictionKey;
      colder := forall i | 0 <= i < |chosen| :: Less(EvictionKey(incoming, step), EvictionKey(chosen[i], step));
      ColderOnFields(step, incoming, chosen);
    }

    method Keep(id: nat, value: seq<byte>)
      requires ValidBut({id}) && id in table && table[id].dirty && table[id].resident.None? && id !in lost
      requires resident + table[id].size <= budget
      modifies this`table, this`resident
      ensures ValidBut({id}) && table == old(table)[id := old(table)[id].(resident := Some(value))]
      ensures ContentsOf(table, fabric, lost) == ContentsOf(old(table), fabric, lost)
    {
      hide ResidentTotal, Pieces, AllOwned, AllWhole, ContentsOf;
      TotalUpdate(table, id, table[id].(resident := Some(value)));
      KeepOwned(table, fabric, owner, lost, id, table[id].(resident := Some(value)));
      table := table[id := table[id].(resident := Some(value))];
      resident := resident + table[id].size;
    }

    /**
     Stores a tensor. On success the store holds exactly one more value; on failure, whatever
     part of the work had been done, it holds exactly what it held.
     */
    method Offload(value: seq<byte>, nextUse: Option<nat>, remaining: nat, allowVram: bool)
      returns (r: Option<nat>, ghost outcome: Retention, ghost selected: seq<Candidate>)
      requires ValidBut({})
      modifies this`table, this`resident, this`fabric, this`nextId, this`nextBlock, this`tick, this`owner
      ensures ValidBut({}) && lost == old(lost)
      ensures r.Some? ==> r.value !in old(table) && Contents() == old(Contents())[r.value := value]
      ensures r.Some? ==> r.value in table && table[r.value].resident == if outcome.Retained? then Some(value) else None
      ensures r.None? ==> Contents() == old(Contents()) && table.Keys == old(table).Keys
      ensures if allowVram then RetentionIs(budget, blockBytes, env, old(table), step, old(resident), old(tick), Candidate(old(nextId), |value|, nextUse, remaining, 1.0, 0), outcome, selected) else outcome == Declined
      ensures outcome.Declined? ==> tick > old(tick)
      ensures r.Some? <==> outcome.Retained? || (outcome.Declined? && Stores(env(tick - 1), |value|, blockBytes))
    {
      hide AllOwned, AllWhole, ResidentTotal, Pieces, ContentsOf, Same, Stores, RetentionIs, IdsOf, AllColder;
      var id := nextId;
      Admit(Handle(|value|, None, [], true, nextUse, remaining, 1.0, 0));
      outcome, selected := Declined, [];
      if allowVram {
        var kept;
        ghost var t0 := table;
        kept, selected := TryRetain(id, value);
        outcome := kept;
        RetentionBefore(budget, blockBytes, env, old(table), id, t0[id], step, old(resident), old(tick), outcome, selected);
        if kept.Retained? {
          CompleteUpload(id, value);
          return Some(id), outcome, selected;
        }
        if kept.Raised? {
          Discard(id);
          return None, outcome, selected;
        }
      }
      var ok := Upload(id, value);
      r := if ok then Some(id) else None;
    }

    /** Writes an admitted tensor to blocks, or takes it out of the table again. */
    method Upload(id: nat, value: seq<byte>) returns (ok: bool)
      requires ValidBut({id}) && id in table && id !in lost && table[id].dirty && table[id].resident.None? && table[id].blocks == []
      requires table[id].size == |value|
      modifies this`table, this`fabric, this`nextBlock, this`tick, this`owner
      ensures ValidBut({}) && tick == old(tick) + 1 && (ok <==> Stores(env(old(tick)), |value|, blockBytes))
      ensures ok ==> id in table && table[id].resident.None? && table.Keys == old(table).Keys
                     && Contents() == ContentsOf(old(table), old(fabric), lost)[id := value]
      ensures !ok ==> table.Keys == old(table).Keys - {id} && Contents() == ContentsOf(old(table), old(fabric), lost)
    {
      hide AllOwned, AllWhole, ResidentTotal, Pieces, ContentsOf, Same, Stores;
      ok := WriteBacking(id, value, {id});
      SameContents(old(table), old(fabric), table, fabric, id, lost);
      SameKeys(old(table), old(fabric), table, fabric, id);
      if ok { CompleteUpload(id, value); } else { Discard(id); }
    }

    /** The handle is entered in the table before its upload starts. */
    method Admit(h: Handle)
      requires ValidBut({}) && h.dirty && h.resident.None? && h.blocks == []
      modifies this`table, this`nextId
      ensures nextId == old(nextId) + 1 && old(nextId) !in old(table) && old(nextId) !in lost
      ensures table == old(table)[old(nextId) := h] && ValidBut({old(nextId)})
      ensures ContentsOf(table, fabric, lost) == ContentsOf(old(table), fabric, lost)
    {
      hide ResidentTotal, Bytes, Pieces;
      var id := nextId;
      TotalUpdate(table, id, h);
      AdmitOwned(table, fabric, owner, lost, id, h);
      table := table[id := h];
      nextId := nextId + 1;
    }

    /** The upload is done: from now on the handle counts. */
    method CompleteUpload(id: nat, value: seq<byte>)
      requires ValidBut({id}) && id in table && id !in lost && table[id].size == |value|
      requires Bytes(table[id], fabric) == value && (table[id].resident.Some? ==> table[id].blocks == [])
      modifies this`table
      ensures ValidBut({}) && table == old(table)[id := old(table)[id].(dirty := false)]
      ensures ContentsOf(table, fabric, lost) == ContentsOf(old(table), fabric, lost)[id := value]
    {
      hide ResidentTotal, Pieces;
      var h := table[id].(dirty := false);
      TotalUpdate(table, id, h);
      SameStart(table, fabric, {id});
      assert {} + {id} == {id};
      Close(table, fabric, owner, lost, {}, id, h);
      OneChanged(table, fabric, id, h);
      table := table[id := h];
      PutContents(old(table), fabric, table, fabric, id, lost);
    }

    /** An upload that failed leaves no trace. */
    method Discard(id: nat)
      requires ValidBut({id}) && id in table && table[id].resident.None? && (table[id].dirty || id in lost)
      modifies this`table
      ensures ValidBut({}) && table == old(table) - {id}
      ensures ContentsOf(table, fabric, lost) == ContentsOf(old(table), fabric, lost)
    {
      hide ResidentTotal, Bytes, Pieces;
      TotalRemove(table, id);
      table := table - {id};
    }

    /**
     Reads a tensor back. It returns exactly the bytes that were stored, wherever they are, and
     may move them into VRAM; a failure changes no contents.
     */
    method Restore(id: nat, cuda: bool, retain: bool) returns (r: Option<seq<byte>>, trouble: Trouble)
      requires ValidBut({}) && id in table
      modifies this`table, this`resident, this`fabric, this`nextBlock, this`tick, this`owner
      ensures ValidBut({}) && lost == old(lost) && Contents() == old(Contents()) && table.Keys == old(table).Keys
      ensures r.Some? <==> trouble == Fine
      ensures r.Some? && id !in lost ==> r.value == old(Contents())[id]
      ensures table[id] == old(table)[id].(resident := table[id].resident, blocks := table[id].blocks, reuse := old(table)[id].reuse + 1)
      ensures old(table)[id].resident.Some? ==> trouble == Fine
      ensures cuda || trouble == Fine || trouble == ReadRaised
      ensures match trouble
              case Fine => true
              case TooSmall => tick > 0 && env(tick - 1).safe + ResidentTotal(table, Evictable(table, {id})) < old(table)[id].size
              case SpillRaised => Stuck()
              case ReadRaised => tick > 0 && !env(tick - 1).readable && old(table)[id].blocks != []
              case FreeRaised => tick > 0 && !env(tick - 1).freeable && old(table)[id].blocks != [] && retain && table[id].resident.Some?
      // It is in VRAM afterwards exactly when it was asked to be kept there and fitted, with what was resident at that moment.
      ensures old(table)[id].resident.None? && (trouble == Fine || trouble == FreeRaised) ==>
                var size, promoted := old(table)[id].size, table[id].resident.Some?;
                var before := resident - if promoted then size else 0;
                tick > 0 && before >= 0 && (promoted <==> cuda && retain && before + size <= CapacityAt(budget, before, env(tick - 1)))
    {
      hide AllOwned, AllWhole, ResidentTotal, Pieces, ContentsOf, Same, Stores, Spilled, Evictable;
      Touch(id);
      if table[id].resident.Some? {
        return Some(table[id].resident.value), Fine;
      }
      if cuda {
        trouble := RoomFor(id);
        if trouble != Fine { return None, trouble; }
      }
      r, trouble := ReadBack(id, cuda && retain);
    }

    /** Room for a tensor about to be read: others may have to go, and nothing else changes. */
    method RoomFor(id: nat) returns (trouble: Trouble)
      requires ValidBut({}) && id in table && table[id].resident.None?
      modifies this`table, this`resident, this`fabric, this`nextBlock, this`tick, this`owner
      ensures ValidBut({}) && Contents() == old(Contents()) && table.Keys == old(table).Keys && tick > old(tick)
      ensures id in table && table[id] == old(table)[id] && Bytes(table[id], fabric) == Bytes(old(table)[id], old(fabric))
      ensures match trouble
              case Fine => true
              case TooSmall => env(tick - 1).safe + ResidentTotal(table, Evictable(table, {id})) < old(table)[id].size
              case SpillRaised => Stuck()
              case _ => false
    {
      hide AllOwned, AllWhole, ResidentTotal, Pieces, ContentsOf, Same, Stores, Spilled, Evictable;
      ghost var moved;
      NothingProtected(table, id);
      trouble, moved := EnsureCapacity(table[id].size, {id}, {});
      SpilledContents(old(table), old(fabric), table, fabric, moved, lost);
      SpilledElsewhere(old(table), old(fabric), table, fabric, moved, id);
      OnlySelected(old(table), old(fabric), table, fabric, moved);
    }

    /** Reads a tensor from its blocks and, if asked to and it fits, moves it into VRAM. */
    method ReadBack(id: nat, promote: bool) returns (r: Option<seq<byte>>, trouble: Trouble)
      requires ValidBut({}) && id in table && table[id].resident.None?
      modifies this`table, this`resident, this`fabric, this`tick
      ensures ValidBut({}) && ContentsOf(table, fabric, lost) == ContentsOf(old(table), old(fabric), lost) && table.Keys == old(table).Keys
      ensures tick == old(tick) + 1 && (r.Some? <==> trouble == Fine)
      ensures r.Some? && id !in lost ==> r.value == Bytes(old(table)[id], old(fabric))
      ensures trouble == ReadRaised <==> !env(old(tick)).readable && old(table)[id].blocks != []
      ensures trouble == FreeRaised ==> !env(old(tick)).freeable && old(table)[id].blocks != [] && promote
      ensures trouble == Fine || trouble == ReadRaised || trouble == FreeRaised
      ensures trouble != ReadRaised ==>
                (table[id].resident.Some? <==> promote && old(resident) + old(table)[id].size <= CapacityAt(budget, old(resident), env(old(tick))))
      ensures trouble == FreeRaised ==> table[id].resident.Some?
      ensures id in table && table[id] == old(table)[id].(resident := table[id].resident, blocks := table[id].blocks)
      ensures resident == old(resident) + (if table[id].resident.Some? then old(table)[id].size else 0)
    {
      hide AllOwned, AllWhole, ResidentTotal, Pieces, ContentsOf, Same;
      WholeAt(table, fabric, lost, {}, id);
      var weather := env(tick);
      tick := tick + 1;
      var blocks := table[id].blocks;
      if !weather.readable && blocks != [] { return None, ReadRaised; }
      var result := ReadBlocks(blocks, table[id].size);
      if promote && resident + table[id].size <= CapacityAt(budget, resident, weather) {
        Promote(id, result, weather.freeable);
        // The value has moved already when giving the blocks back raises.
        if !weather.freeable && blocks != [] { return None, FreeRaised; }
      }
      r, trouble := Some(result), Fine;
    }

    /** Fills a buffer of `size` bytes from the blocks; what they do not cover stays as it was allocated. */
    method ReadBlocks(blocks: seq<nat>, size: nat) returns (value: seq<byte>)
      ensures |Pieces(fabric, blocks)| == size ==> value == Pieces(fabric, blocks)
      ensures |Pieces(fabric, blocks)| <= size ==> |value| == size
    {
      value := [];
      for i := 0 to |blocks|
        invariant value == Pieces(fabric, blocks[..i])
      {
        assert blocks[..i + 1][..i] == blocks[..i];
        value := value + Piece(fabric, blocks[i]);
      }
      assert blocks[..|blocks|] == blocks;
      if |value| < size {
        value := value + seq(size - |value|, _ => 0);
      }
    }

    method Touch(id: nat)
      requires ValidBut({}) && id in table
      modifies this`table
      ensures ValidBut({}) && table == old(table)[id := old(table)[id].(reuse := old(table)[id].reuse + 1)]
      ensures ContentsOf(table, fabric, lost) == ContentsOf(old(table), fabric, lost)
      ensures id !in lost ==> id in Contents() && Contents()[id] == Bytes(table[id], fabric)
    {
      hide ResidentTotal, Pieces;
      var h := table[id].(reuse := table[id].reuse + 1);
      TotalUpdate(table, id, h);
      table := table[id := h];
      forall other | other in table ensures Owned(other, table[other].blocks, fabric, owner) {
        assert Owned(other, old(table)[other].blocks, fabric, owner);
      }
    }

    /** After a successful read into VRAM the blocks are let go: promotion is a move. */
    method Promote(id: nat, value: seq<byte>, freed: bool)
      requires ValidBut({}) && id in table && table[id].resident.None? && |value| == table[id].size
      requires (id in lost || value == Pieces(fabric, table[id].blocks)) && resident + table[id].size <= budget
      modifies this`table, this`fabric, this`resident
      ensures ValidBut({}) && ContentsOf(table, fabric, lost) == ContentsOf(old(table), old(fabric), lost)
      ensures table == old(table)[id := old(table)[id].(resident := Some(value), blocks := [])]
      ensures resident == old(resident) + old(table)[id].size
      ensures fabric == if freed then old(fabric) - (set b | b in old(table)[id].blocks) else old(fabric)
    {
      hide AllOwned, AllWhole, ResidentTotal, Pieces, ContentsOf, Same;
      var h := table[id];
      WholeAt(table, fabric, lost, {}, id);
      OpenMore(table, fabric, lost, {}, id);
      assert {} + {id} == {id};
      Release(id, freed, {id});
      ghost var t1 := table;
      var h' := h.(resident := Some(value), blocks := []);
      table := table[id := h'];
      SameRest(old(table), old(fabric), t1, fabric, id);
      OnlyThis(old(table), t1, id, h');
      TotalUpdate(t1, id, h');
      resident := resident + h.size;
      Close(t1, fabric, owner, lost, {}, id, h');
      SameThenChanged(old(table), old(fabric), t1, fabric, id, h');
      if id !in lost {
        PutContents(old(table), old(fabric), table, fabric, id, lost);
        InContents(old(table), old(fabric), lost, id);
      } else {
        TakeContents(old(table), old(fabric), table, fabric, id, lost);
        NotCounted(old(table), old(fabric), lost, id);
      }
    }

    /**
     Gives a tensor up; that fails exactly when it has blocks and freeing them raises. On success
     it is gone and nothing else has changed. On failure the handle stays in the table without its
     bytes, and counts as lost.
     */
    method Free(id: nat) returns (ok: bool)
      requires ValidBut({})
      modifies this`table, this`resident, this`fabric, this`tick, this`lost
      ensures ok <==> id !in old(table) || old(table)[id].blocks == [] || env(old(tick)).freeable
      ensures !ok ==> id in table && table[id].blocks == []
      ensures ValidBut({}) && Contents() == old(Contents()) - {id}
      ensures ok ==> table == old(table) - {id} && lost == old(lost)
      ensures !ok ==> id in old(table) && lost == old(lost) + {id} && old(table)[id].blocks != []
    {
      hide AllOwned, AllWhole, ResidentTotal, Pieces, ContentsOf, Same, Bytes;
      if id !in table {
        NotInContents(table, fabric, lost, id);
        assert table - {id} == table;
        return true;
      }
      var h := table[id];
      var weather := env(tick);
      tick := tick + 1;
      OpenMore(table, fabric, lost, {}, id);
      assert {} + {id} == {id};
      Release(id, weather.freeable, {id});
      ghost var t1 := table;
      TakeContents(old(table), old(fabric), table, fabric, id, lost);
      if !weather.freeable && h.blocks != [] {
        LoseWhole(old(table), old(fabric), t1, fabric, lost, id);
        lost := lost + {id};
        LoseContents(old(table), old(fabric), t1, fabric, id, old(lost));
        return false;
      }
      SameRest(old(table), old(fabric), table, fabric, id);
      TotalRemove(table, id);
      resident := resident - ResidentSize(h);
      table := table - {id};
      ForgetOwned(t1, fabric, owner, lost, id);
      ok := true;
    }

    /** Optimizer inputs leave VRAM before they are read transiently; only a spill that raises stops this. */
    method PrepareTransient(ids: seq<nat>) returns (ok: bool)
      requires ValidBut({}) && forall i | 0 <= i < |ids| :: ids[i] in table
      modifies this`table, this`resident, this`fabric, this`nextBlock, this`tick, this`owner
      ensures ValidBut({}) && Contents() == old(Contents()) && table.Keys == old(table).Keys
      ensures ok ==> forall i | 0 <= i < |ids| :: ids[i] in table && table[ids[i]].resident.None?
      ensures !ok ==> tick > old(tick) && exists i :: 0 <= i < |ids| && ids[i] in table && table[ids[i]].resident.Some?
                                                      && !Stores(env(tick - 1), table[ids[i]].size, blockBytes)
    {
      hide AllOwned, AllWhole, ResidentTotal, Pieces, ContentsOf, Bytes;
      for i := 0 to |ids|
        invariant ValidBut({}) && Contents() == old(Contents()) && table.Keys == old(table).Keys && tick >= old(tick)
        invariant forall j | 0 <= j < i :: table[ids[j]].resident.None?
      {
        if table[ids[i]].resident.Some? {
          ghost var t1, f1 := table, fabric;
          ok := Spill(ids[i], {});
          SpilledContents(t1, f1, table, fabric, {ids[i]}, lost);
          if !ok { return; }
        }
      }
      ok := true;
    }
  }

  lemma HasBlocks(table: map<nat, Handle>, fabric: Fabric, lost: set<nat>, id: nat)
    requires id in table && id in ContentsOf(table, fabric, lost) && ContentsOf(table, fabric, lost)[id] != [] && table[id].resident.None?
    ensures table[id].blocks != []
  {
  }

  // ---- Any calls in any order ----

  datatype Call =
    | PutTensor(value: seq<byte>, nextUse: Option<nat>, remaining: nat, allowVram: bool)
    | GetTensor(id: nat, cuda: bool, retain: bool)
    | FreeTensor(id: nat)
    | MakeRoom(needed: nat, protected: set<nat>)
    | Prepare(ids: seq<nat>)

  /** What a call answers: the new id, the bytes read, or whether it succeeded. */
  datatype Answer = NewId(id: Option<nat>) | Value(value: Option<seq<byte>>) | Went(ok: bool)

  /** What a call does to a plain map from ids to bytes. */
  function OnMap(m: map<nat, seq<byte>>, c: Call, a: Answer): map<nat, seq<byte>> {
    match c
    case PutTensor(value, _, _, _) => if a.NewId? && a.id.Some? then m[a.id.value := value] else m
    case FreeTensor(id) => m - {id}
    case _ => m
  }

  function AllOnMap(m: map<nat, seq<byte>>, cs: seq<Call>, answers: seq<Answer>): map<nat, seq<byte>>
    requires |answers| == |cs|
  {
    if cs == [] then m else OnMap(AllOnMap(m, cs[..|cs| - 1], answers[..|cs| - 1]), cs[|cs| - 1], answers[|cs| - 1])
  }

  /** The answer is one the plain map gives: new ids are new, and what is read is what is there. */
  predicate AnswersAs(m: map<nat, seq<byte>>, c: Call, a: Answer) {
    match c
    case PutTensor(_, _, _, _) => a.NewId? && (a.id.Some? ==> a.id.value !in m)
    case GetTensor(id, _, _) => a.Value? && (a.value.Some? && id in m ==> a.value.value == m[id])
    case _ => a.Went?
  }

  /** One call; handles that are not in the table are left alone. */
  method ServeOne(store: Store, c: Call) returns (a: Answer)
    requires store.ValidBut({})
    modifies store
    ensures store.ValidBut({}) && AnswersAs(old(store.Contents()), c, a) && store.Contents() == OnMap(old(store.Contents()), c, a)
  {
    hide AllOwned, AllWhole, ResidentTotal, Bytes, Pieces, Stores, RetentionIs, Evictable;
    match c
    case PutTensor(value, nextUse, remaining, allowVram) =>
      var id, _, _ := store.Offload(value, nextUse, remaining, allowVram);
      a := NewId(id);
    case GetTensor(id, cuda, retain) =>
      var r := None;
      if id in store.table {
        InContentsOnly(store.table, store.fabric, store.lost);
        var trouble;
        r, trouble := store.Restore(id, cuda, retain);
      }
      a := Value(r);
    case FreeTensor(id) =>
      var ok := store.Free(id);
      a := Went(ok);
    case MakeRoom(needed, protected) =>
      ghost var t, f := store.table, store.fabric;
      var trouble, moved := store.EnsureCapacity(needed, protected, {});
      SpilledContents(t, f, store.table, store.fabric, moved, store.lost);
      a := Went(trouble == Fine);
    case Prepare(ids) =>
      var ok := false;
      if forall i | 0 <= i < |ids| :: ids[i] in store.table { ok := store.PrepareTransient(ids); }
      a := Went(ok);
  }

  lemma InContentsOnly(table: map<nat, Handle>, fabric: Fabric, lost: set<nat>)
    ensures forall id | id in ContentsOf(table, fabric, lost) :: id in table && id !in lost
  {
  }

  /**
   Any calls in any order, whatever succeeds or raises: the store answers as a plain map from ids
   to bytes does, and holds what that map holds.
   */
  method Serve(store: Store, cs: seq<Call>) returns (answers: seq<Answer>)
    requires store.ValidBut({})
    modifies store
    ensures store.ValidBut({}) && |answers| == |cs| && store.Contents() == AllOnMap(old(store.Contents()), cs, answers)
    ensures forall i | 0 <= i < |cs| :: AnswersAs(AllOnMap(old(store.Contents()), cs[..i], answers[..i]), cs[i], answers[i])
  {
    hide Store.ValidBut, OnMap, AnswersAs;
    answers := [];
    for i := 0 to |cs|
      invariant store.ValidBut({}) && |answers| == i && store.Contents() == AllOnMap(old(store.Contents()), cs[..i], answers)
      invariant forall j | 0 <= j < i :: AnswersAs(AllOnMap(old(store.Contents()), cs[..j], answers[..j]), cs[j], answers[j])
    {
      var a := ServeOne(store, cs[i]);
      ghost var before := answers;
      answers := answers + [a];
      assert cs[..i + 1][..i] == cs[..i] && answers[..i] == before;
      assert forall j | 0 <= j < i :: answers[..j] == before[..j];
    }
    assert cs[..|cs|] == cs;
  }

  /** A free that raises loses the tensor, although its handle stays; freeing it again succeeds. */
  method FreeMayLose(value: seq<byte>) returns (first: bool, second: bool)
    requires value != []
    ensures !first && second
  {
    hide AllOwned, AllWhole, ResidentTotal, Pieces, ContentsOf;
    var store := new Store(0, 1, t => Weather(0, None, true, true, false, false));
    var id, _, _ := store.Offload(value, None, 0, false);
    assert id.Some? by { assert store.env(0).fault.None?; }
    HasBlocks(store.table, store.fabric, store.lost, id.value);
    first := store.Free(id.value);
    second := store.Free(id.value);
  }

  /** The listed candidates' sizes are the resident bytes of their ids. */
  lemma {:induction false} TotalIsResident(table: map<nat, Handle>, cs: seq<Candidate>)
    requires DistinctIds(cs) && forall i | 0 <= i < |cs| :: cs[i].id in table && ResidentSize(table[cs[i].id]) == cs[i].size
    ensures IdsOf(cs) <= table.Keys && Total(cs) == ResidentTotal(table, IdsOf(cs))
  {
    if cs == [] {
      assert IdsOf(cs) == {};
    } else {
      var n := |cs| - 1;
      TotalIsResident(table, cs[..n]);
      NextSelected(cs, n);
      assert cs[..n + 1] == cs;
      assert forall j | 0 <= j < n :: cs[..n][j].id == cs[j].id;
      assert cs[n].id !in IdsOf(cs[..n]);
      assert IdsOf(cs) - {cs[n].id} == IdsOf(cs[..n]);
      TotalTakeOut(table, IdsOf(cs), cs[n].id);
    }
  }

  /** Who is not selected ranks after everyone who is. */
  lemma LeftOver(cs: seq<Candidate>, selected: seq<Candidate>, left: seq<Candidate>, c: Candidate)
    requires multiset(selected) + multiset(left) == multiset(cs) && c in cs && c !in selected
    ensures c in left
  {
    assert c in multiset(cs) && c !in multiset(selected);
  }

  /** What is selected is among the candidates, each at most once. */
  lemma AmongCandidates(cs: seq<Candidate>, selected: seq<Candidate>, left: seq<Candidate>)
    requires multiset(selected) + multiset(left) == multiset(cs) && DistinctIds(cs)
    ensures (forall c | c in selected :: c in cs) && DistinctIds(selected)
  {
    forall c | c in selected ensures c in cs { assert c in multiset(cs); }
    forall i, j | 0 <= i < j < |selected| ensures selected[i].id != selected[j].id {
      if selected[i].id == selected[j].id {
        assert selected[i] in cs && selected[j] in cs;
        CountTwice(selected, i, j);
        CountOnce(cs, selected[i]);
      }
    }
  }

  ghost function IdsOf(cs: seq<Candidate>): set<nat> {
    set i | 0 <= i < |cs| :: cs[i].id
  }

  lemma NotSelected(cs: seq<Candidate>, id: nat)
    requires forall i | 0 <= i < |cs| :: cs[i].id !in {id}
    ensures id !in IdsOf(cs)
  {
  }

  lemma NextSelected(cs: seq<Candidate>, i: nat)
    requires i < |cs|
    ensures IdsOf(cs[..i + 1]) == IdsOf(cs[..i]) + {cs[i].id} && IdsOf(cs[..i + 1]) <= IdsOf(cs)
    ensures Total(cs[..i + 1]) == Total(cs[..i]) + cs[i].size
  {
    assert cs[..i + 1][..i] == cs[..i];
    forall x | x in IdsOf(cs[..i + 1]) ensures x in IdsOf(cs[..i]) + {cs[i].id} && x in IdsOf(cs) {
      var j :| 0 <= j <= i && cs[..i + 1][j].id == x;
      assert cs[j].id == x;
      if j < i { assert cs[..i][j].id == x; }
    }
    forall x | x in IdsOf(cs[..i]) ensures x in IdsOf(cs[..i + 1]) {
      var j :| 0 <= j < i && cs[..i][j].id == x;
      assert cs[..i + 1][j].id == x;
    }
    assert cs[..i + 1][i].id == cs[i].id;
  }

  lemma EmptyTotal(cs: seq<Candidate>)
    requires cs == []
    ensures Total(cs) == 0 && IdsOf(cs) == {}
  {
  }

  lemma SpilledWider(t0: map<nat, Handle>, f0: Fabric, t1: map<nat, Handle>, f1: Fabric, ids: set<nat>, more: set<nat>)
    requires Spilled(t0, f0, t1, f1, ids) && ids <= more
    ensures Spilled(t0, f0, t1, f1, more)
  {
    hide Bytes;
  }

  /** Spilling one tensor takes exactly its size off the resident total. */
  lemma SpilledSize(t0: map<nat, Handle>, f0: Fabric, t1: map<nat, Handle>, f1: Fabric, id: nat, before: nat, after: nat)
    requires Spilled(t0, f0, t1, f1, {id}) && id in t0 && t0[id].resident.Some? && t1[id].resident.None?
    requires before == ResidentTotal(t0, t0.Keys) && after == ResidentTotal(t1, t1.Keys)
    ensures after + t0[id].size == before
  {
    hide Bytes;
    TotalTakeOut(t0, t0.Keys, id);
    TotalTakeOut(t1, t1.Keys, id);
    TotalSame(t0, t1, t0.Keys - {id});
  }
}
