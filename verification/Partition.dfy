/**
 How nodes are cut into groups: the first partition, and the splitting of groups that do not fit.
 */
module Partition {
  import opened Graph

  const MAX_NODES: nat := 12

  function SizeOf(ids: seq<nat>, size: nat -> nat): nat {
    if ids == [] then 0 else SizeOf(ids[..|ids| - 1], size) + size(ids[|ids| - 1])
  }

  /** A group respects the node limit and, unless it is a single node, a third of the budget. */
  predicate Admissible(ids: seq<nat>, size: nat -> nat, budget: nat) {
    && 0 < |ids| <= MAX_NODES
    && (budget > 0 && |ids| > 1 ==> 3 * SizeOf(ids, size) <= budget)
  }

  /** A value with several users ends its group. */
  predicate FansOutLast(ids: seq<nat>, fans: nat -> bool) {
    forall j | 0 <= j < |ids| - 1 :: !fans(ids[j])
  }

  /** The group could not have taken the next node. */
  predicate Full(ids: seq<nat>, next: nat, size: nat -> nat, fans: nat -> bool, budget: nat) {
    && ids != []
    && (fans(ids[|ids| - 1]) || |ids| >= MAX_NODES || (budget > 0 && 3 * (SizeOf(ids, size) + size(next)) > budget))
  }

  /** Groups in order, each admissible, none closed early. */
  ghost predicate Greedy(chunks: seq<seq<nat>>, size: nat -> nat, fans: nat -> bool, budget: nat) {
    && (forall i | 0 <= i < |chunks| :: Admissible(chunks[i], size, budget) && FansOutLast(chunks[i], fans))
    && (forall i | 0 <= i < |chunks| - 1 :: Full(chunks[i], chunks[i + 1][0], size, fans, budget))
  }

  ghost predicate FullForAll(ids: seq<nat>, size: nat -> nat, fans: nat -> bool, budget: nat) {
    forall next: nat :: Full(ids, next, size, fans, budget)
  }

  /** A group under construction, which may be empty. */
  ghost predicate Growing(chunks: seq<seq<nat>>, chunk: seq<nat>, size: nat -> nat, fans: nat -> bool, budget: nat) {
    && (chunk != [] ==> Admissible(chunk, size, budget) && FansOutLast(chunk, fans) && !fans(chunk[|chunk| - 1]))
    && (chunks != [] && chunk != [] ==> Full(chunks[|chunks| - 1], chunk[0], size, fans, budget))
    && (chunks != [] && chunk == [] ==> FullForAll(chunks[|chunks| - 1], size, fans, budget))
  }

  predicate Fits(chunk: seq<nat>, node: nat, size: nat -> nat, budget: nat) {
    chunk == [] || (|chunk| < MAX_NODES && (budget > 0 ==> 3 * (SizeOf(chunk, size) + size(node)) <= budget))
  }

  /** A node joins the group it fits, or starts the next one. */
  lemma Take(chunks: seq<seq<nat>>, chunk: seq<nat>, node: nat, size: nat -> nat, fans: nat -> bool, budget: nat)
    requires Growing(chunks, chunk, size, fans, budget) && Fits(chunk, node, size, budget)
    ensures SizeOf(chunk + [node], size) == SizeOf(chunk, size) + size(node)
    ensures Admissible(chunk + [node], size, budget) && FansOutLast(chunk + [node], fans)
    ensures chunks != [] ==> Full(chunks[|chunks| - 1], (chunk + [node])[0], size, fans, budget)
  {
    assert (chunk + [node])[..|chunk|] == chunk;
  }

  lemma Closed(chunks: seq<seq<nat>>, chunk: seq<nat>, node: nat, size: nat -> nat, fans: nat -> bool, budget: nat)
    requires chunk != []
    ensures !Fits(chunk, node, size, budget) ==> Full(chunk, node, size, fans, budget)
    ensures fans(chunk[|chunk| - 1]) ==> FullForAll(chunk, size, fans, budget)
  {
  }

  /** The first cut: whatever the sizes and the fan-out, the groups are the nodes in order, as few breaks as the rules allow. */
  method MakePartition(nodes: seq<nat>, size: nat -> nat, fans: nat -> bool, budget: nat) returns (chunks: seq<seq<nat>>)
    ensures Flatten(chunks) == nodes && Greedy(chunks, size, fans, budget)
    ensures forall i | 0 <= i < |chunks| ::
              && 0 < |chunks[i]| <= 12 && (budget > 0 && |chunks[i]| > 1 ==> 3 * SizeOf(chunks[i], size) <= budget)
              && forall j | 0 <= j < |chunks[i]| - 1 :: !fans(chunks[i][j])
    ensures forall i | 0 <= i < |chunks| - 1 ::
              || fans(chunks[i][|chunks[i]| - 1]) || |chunks[i]| >= 12
              || (budget > 0 && 3 * (SizeOf(chunks[i], size) + size(chunks[i + 1][0])) > budget)
  {
    hide Greedy, Admissible, FansOutLast, Full, Flatten, SizeOf;
    chunks := [];
    var chunk: seq<nat>, bytes := [], 0;
    NothingYet(size, fans, budget);
    for k := 0 to |nodes|
      invariant Flatten(chunks) + chunk == nodes[..k] && bytes == SizeOf(chunk, size)
      invariant Greedy(chunks, size, fans, budget) && Growing(chunks, chunk, size, fans, budget)
    {
      var node := nodes[k];
      assert nodes[..k + 1] == nodes[..k] + [node];
      if chunk != [] && (|chunk| >= MAX_NODES || (budget > 0 && 3 * (bytes + size(node)) > budget)) {
        Closed(chunks, chunk, node, size, fans, budget);
        Close(chunks, chunk, size, fans, budget);
        chunks := chunks + [chunk];
        TakeFirst(chunks, node, size, fans, budget);
        NothingYet(size, fans, budget);
        chunk, bytes := [node], size(node);
      } else {
        Take(chunks, chunk, node, size, fans, budget);
        chunk, bytes := chunk + [node], bytes + size(node);
      }
      if fans(node) {
        Closed(chunks, chunk, node, size, fans, budget);
        Close(chunks, chunk, size, fans, budget);
        chunks := chunks + [chunk];
        NothingYet(size, fans, budget);
        chunk, bytes := [], 0;
      }
    }
    assert nodes[..|nodes|] == nodes;
    if chunk != [] {
      Close(chunks, chunk, size, fans, budget);
      chunks := chunks + [chunk];
    }
    InNumbers(chunks, size, fans, budget);
  }

  lemma InNumbers(chunks: seq<seq<nat>>, size: nat -> nat, fans: nat -> bool, budget: nat)
    requires Greedy(chunks, size, fans, budget)
    ensures forall i | 0 <= i < |chunks| ::
              && 0 < |chunks[i]| <= 12 && (budget > 0 && |chunks[i]| > 1 ==> 3 * SizeOf(chunks[i], size) <= budget)
              && forall j | 0 <= j < |chunks[i]| - 1 :: !fans(chunks[i][j])
    ensures forall i | 0 <= i < |chunks| - 1 ::
              || fans(chunks[i][|chunks[i]| - 1]) || |chunks[i]| >= 12
              || (budget > 0 && 3 * (SizeOf(chunks[i], size) + size(chunks[i + 1][0])) > budget)
  {
    hide SizeOf;
    forall i | 0 <= i < |chunks| - 1
      ensures || fans(chunks[i][|chunks[i]| - 1]) || |chunks[i]| >= 12
              || (budget > 0 && 3 * (SizeOf(chunks[i], size) + size(chunks[i + 1][0])) > budget)
    {
      assert Full(chunks[i], chunks[i + 1][0], size, fans, budget);
    }
  }

  lemma NothingYet(size: nat -> nat, fans: nat -> bool, budget: nat)
    ensures Greedy([], size, fans, budget) && Flatten([]) == [] && SizeOf([], size) == 0
  {
  }

  lemma TakeFirst(chunks: seq<seq<nat>>, node: nat, size: nat -> nat, fans: nat -> bool, budget: nat)
    ensures SizeOf([node], size) == size(node) && Admissible([node], size, budget) && FansOutLast([node], fans)
  {
    assert [node][..0] == [];
  }

  lemma Close(chunks: seq<seq<nat>>, chunk: seq<nat>, size: nat -> nat, fans: nat -> bool, budget: nat)
    requires Greedy(chunks, size, fans, budget) && Admissible(chunk, size, budget) && FansOutLast(chunk, fans)
    requires chunks != [] ==> Full(chunks[|chunks| - 1], chunk[0], size, fans, budget)
    ensures Greedy(chunks + [chunk], size, fans, budget) && Flatten(chunks + [chunk]) == Flatten(chunks) + chunk
  {
    hide Greedy, Admissible, FansOutLast, Full, Flatten;
    CloseGreedy(chunks, chunk, size, fans, budget);
    FlattenPrefix(chunks + [chunk], |chunks|);
    assert (chunks + [chunk])[..|chunks|] == chunks && (chunks + [chunk])[..|chunks| + 1] == chunks + [chunk];
  }

  lemma CloseGreedy(chunks: seq<seq<nat>>, chunk: seq<nat>, size: nat -> nat, fans: nat -> bool, budget: nat)
    requires Greedy(chunks, size, fans, budget) && Admissible(chunk, size, budget) && FansOutLast(chunk, fans)
    requires chunks != [] ==> Full(chunks[|chunks| - 1], chunk[0], size, fans, budget)
    ensures Greedy(chunks + [chunk], size, fans, budget)
  {
    hide FansOutLast, Full, SizeOf;
    var all := chunks + [chunk];
    assert all[|chunks|] == chunk && forall i | 0 <= i < |chunks| :: all[i] == chunks[i];
  }

  /** The rules leave no choice: any two greedy partitions of the same nodes are the same. */
  lemma {:induction false} GreedyIsUnique(a: seq<seq<nat>>, b: seq<seq<nat>>, size: nat -> nat, fans: nat -> bool, budget: nat)
    requires Greedy(a, size, fans, budget) && Greedy(b, size, fans, budget) && Flatten(a) == Flatten(b)
    ensures a == b
    decreases |a|
  {
    if a == [] || b == [] {
      NoNodesNoGroups(a);
      NoNodesNoGroups(b);
    } else {
      FirstGroup(a, b, size, fans, budget);
      GreedyTail(a, size, fans, budget);
      GreedyTail(b, size, fans, budget);
      assert a == [a[0]] + a[1..] && b == [b[0]] + b[1..];
      assert Flatten(a[1..]) == Flatten(a)[|a[0]|..] && Flatten(b[1..]) == Flatten(b)[|b[0]|..];
      GreedyIsUnique(a[1..], b[1..], size, fans, budget);
    }
  }

  lemma NoNodesNoGroups(cut: seq<seq<nat>>)
    requires forall i | 0 <= i < |cut| :: cut[i] != []
    ensures Flatten(cut) == [] <==> cut == []
  {
  }

  lemma GreedyTail(a: seq<seq<nat>>, size: nat -> nat, fans: nat -> bool, budget: nat)
    requires Greedy(a, size, fans, budget) && a != []
    ensures Greedy(a[1..], size, fans, budget) && Flatten(a) == a[0] + Flatten(a[1..])
  {
    hide Admissible, FansOutLast, Full;
    assert a[0..] == a;
    FlattenSuffix(a, 0);
    assert forall i | 0 <= i < |a| - 1 :: a[1..][i] == a[i + 1];
  }

  lemma FirstGroup(a: seq<seq<nat>>, b: seq<seq<nat>>, size: nat -> nat, fans: nat -> bool, budget: nat)
    requires Greedy(a, size, fans, budget) && Greedy(b, size, fans, budget) && Flatten(a) == Flatten(b) && a != [] && b != []
    ensures a[0] == b[0]
  {
    GreedyTail(a, size, fans, budget);
    GreedyTail(b, size, fans, budget);
    if |a[0]| < |b[0]| {
      Shorter(a, b, size, fans, budget);
    } else if |b[0]| < |a[0]| {
      Shorter(b, a, size, fans, budget);
    } else {
      assert Flatten(a)[..|a[0]|] == a[0] && Flatten(b)[..|b[0]|] == b[0];
    }
  }

  /** A group that is a proper prefix of an admissible one was not full. */
  lemma Shorter(a: seq<seq<nat>>, b: seq<seq<nat>>, size: nat -> nat, fans: nat -> bool, budget: nat)
    requires Greedy(a, size, fans, budget) && Greedy(b, size, fans, budget) && Flatten(a) == Flatten(b) && a != [] && b != []
    requires Flatten(a) == a[0] + Flatten(a[1..]) && Flatten(b) == b[0] + Flatten(b[1..])
    ensures |a[0]| >= |b[0]|
  {
    if |a[0]| < |b[0]| {
      var n := |a[0]|;
      assert b[0][..n] == a[0] by { assert Flatten(a)[..n] == a[0] && Flatten(b)[..n] == b[0][..n]; }
      assert |Flatten(a[1..])| > 0;
      assert |a| > 1;
      GreedyTail(a, size, fans, budget);
      GreedyTail(a[1..], size, fans, budget);
      assert a[1..][0] == a[1];
      assert Flatten(a)[n] == a[1][0] && Flatten(b)[n] == b[0][n];
      assert b[0][..n + 1][..n] == a[0];
      SizePrefix(b[0], n + 1, size);
    }
  }

  lemma {:induction false} SizePrefix(ids: seq<nat>, n: nat, size: nat -> nat)
    requires n <= |ids|
    ensures SizeOf(ids[..n], size) <= SizeOf(ids, size)
  {
    if n < |ids| {
      assert ids[..|ids| - 1][..n] == ids[..n];
      SizePrefix(ids[..|ids| - 1], n, size);
    } else {
      assert ids[..n] == ids;
    }
  }

  // ---- Splitting until everything fits ----

  function Split(cut: seq<seq<nat>>, i: nat): seq<seq<nat>>
    requires i < |cut|
  {
    var half := |cut[i]| / 2;
    cut[..i] + [cut[i][..half], cut[i][half..]] + cut[i + 1..]
  }

  lemma FlattenHalves(here: seq<nat>, half: nat)
    requires half <= |here|
    ensures Flatten([here[..half], here[half..]]) == here
  {
    var pair := [here[..half], here[half..]];
    FlattenPrefix(pair, 0);
    FlattenPrefix(pair, 1);
    assert pair[..2] == pair;
  }

  lemma SplitKeepsOrder(cut: seq<seq<nat>>, i: nat)
    requires i < |cut| && |cut[i]| > 1
    ensures Flatten(Split(cut, i)) == Flatten(cut) && |Split(cut, i)| == |cut| + 1
    ensures Split(cut, i)[..i] == cut[..i] && Split(cut, i)[i + 2..] == cut[i + 1..]
    ensures Split(cut, i)[i] + Split(cut, i)[i + 1] == cut[i] && |Split(cut, i)[i]| <= |Split(cut, i)[i + 1]| <= |Split(cut, i)[i]| + 1
    ensures (forall k | 0 <= k < |cut| :: cut[k] != []) ==> forall k | 0 <= k < |Split(cut, i)| :: Split(cut, i)[k] != []
  {
    hide Flatten;
    var half := |cut[i]| / 2;
    var pair := [cut[i][..half], cut[i][half..]];
    FlattenHalves(cut[i], half);
    FlattenAppend(cut[..i], pair);
    FlattenAppend(cut[..i] + pair, cut[i + 1..]);
    assert cut == cut[..i] + cut[i..];
    FlattenAppend(cut[..i], cut[i..]);
    FlattenSuffix(cut, i);
    Regroup(Flatten(cut[..i]), cut[i], Flatten(cut[i + 1..]));
  }

  lemma Regroup(a: seq<nat>, b: seq<nat>, c: seq<nat>)
    ensures (a + b) + c == a + (b + c)
  {
  }

  ghost predicate Within(part: seq<nat>, coarse: seq<seq<nat>>) {
    exists j, lo, hi :: 0 <= j < |coarse| && 0 <= lo <= hi <= |coarse[j]| && part == coarse[j][lo..hi]
  }

  /** Every group of `fine` lies inside one group of `coarse`. */
  ghost predicate Refines(fine: seq<seq<nat>>, coarse: seq<seq<nat>>) {
    forall i | 0 <= i < |fine| :: Within(fine[i], coarse)
  }

  lemma SplitRefines(cut: seq<seq<nat>>, i: nat, coarse: seq<seq<nat>>)
    requires i < |cut| && |cut[i]| > 1 && Refines(cut, coarse)
    ensures Refines(Split(cut, i), coarse)
  {
    var fine, half := Split(cut, i), |cut[i]| / 2;
    forall k | 0 <= k < |fine| ensures Within(fine[k], coarse) {
      if k < i {
        assert fine[k] == cut[k];
      } else if k <= i + 1 {
        assert Within(cut[i], coarse);
        var j, lo, hi :| 0 <= j < |coarse| && 0 <= lo <= hi <= |coarse[j]| && cut[i] == coarse[j][lo..hi];
        if k == i {
          assert fine[k] == coarse[j][lo..lo + half];
        } else {
          assert fine[k] == coarse[j][lo + half..hi];
        }
      } else {
        assert fine[k] == cut[k - 1];
      }
    }
  }

  /** Groups are admitted in order; the first that does not fit stops the round. */
  method FirstTooLarge(cut: seq<seq<nat>>, estimate: seq<nat> -> nat, budget: nat) returns (i: nat)
    ensures i <= |cut| && (budget > 0 ==> forall k | 0 <= k < i :: estimate(cut[k]) <= budget)
    ensures i < |cut| ==> budget > 0 && estimate(cut[i]) > budget
  {
    i := 0;
    while i < |cut|
      invariant i <= |cut| && (budget > 0 ==> forall k | 0 <= k < i :: estimate(cut[k]) <= budget)
    {
      if budget > 0 && estimate(cut[i]) > budget { return; }
      i := i + 1;
    }
  }

  lemma SelfRefines(cut: seq<seq<nat>>)
    ensures Refines(cut, cut)
  {
    forall i | 0 <= i < |cut| ensures Within(cut[i], cut) {
      assert cut[i] == cut[i][0..|cut[i]|];
    }
  }

  lemma {:induction false} GroupsAtMostNodes(cut: seq<seq<nat>>)
    requires forall i | 0 <= i < |cut| :: cut[i] != []
    ensures |cut| <= |Flatten(cut)|
  {
    if cut != [] {
      GroupsAtMostNodes(cut[..|cut| - 1]);
    }
  }
}
