/**
 What one group needs: the liveness sweep behind the activation estimate, the phase peaks,
 and the handles its record receives when groups are split.
 */
module Admission {
  // ---- Activation peak ----

  /** Bytes live at position `i`: everything produced by then and used at `i` or later. */
  function LiveBytes(size: seq<nat>, last: seq<nat>, i: nat, n: nat): nat
    requires |size| == |last| && n <= |size|
  {
    if n == 0 then 0 else LiveBytes(size, last, i, n - 1) + if n - 1 <= i <= last[n - 1] then size[n - 1] else 0
  }

  /** A value counts at a position exactly from where it is produced to where it is last used. */
  lemma {:induction false} LiveExactly(size: seq<nat>, last: seq<nat>, i: nat, n: nat, k: nat, more: nat)
    requires |size| == |last| && k < n <= |size|
    ensures LiveBytes(size[k := size[k] + more], last, i, n) == LiveBytes(size, last, i, n) + if k <= i <= last[k] then more else 0
    ensures (forall j | 0 <= j < n :: size[j] == 0) ==> LiveBytes(size, last, i, n) == 0
    decreases n
  {
    if k < n - 1 {
      LiveExactly(size, last, i, n - 1, k, more);
    } else {
      LiveBelow(size, last, i, n - 1, k, more);
    }
  }

  lemma {:induction false} LiveBelow(size: seq<nat>, last: seq<nat>, i: nat, n: nat, k: nat, more: nat)
    requires |size| == |last| && n <= k < |size|
    ensures LiveBytes(size[k := size[k] + more], last, i, n) == LiveBytes(size, last, i, n)
    ensures (forall j | 0 <= j < n :: size[j] == 0) ==> LiveBytes(size, last, i, n) == 0
  {
    if n > 0 { LiveBelow(size, last, i, n - 1, k, more); }
  }

  function PeakUpTo(size: seq<nat>, last: seq<nat>, n: nat): nat
    requires |size| == |last| && n <= |size|
  {
    if n == 0 then 0
    else
      var r, here := PeakUpTo(size, last, n - 1), LiveBytes(size, last, n - 1, |size|);
      if here >= r then here else r
  }

  /** The peak bounds every position and is reached at one. */
  lemma {:induction false} PeakIsMaximum(size: seq<nat>, last: seq<nat>, n: nat) returns (at: nat)
    requires |size| == |last| && 0 < n <= |size|
    ensures at < n && LiveBytes(size, last, at, |size|) == PeakUpTo(size, last, n)
    ensures forall i: nat | i < n :: LiveBytes(size, last, i, |size|) <= PeakUpTo(size, last, n)
  {
    at := n - 1;
    if n > 1 {
      var before := PeakIsMaximum(size, last, n - 1);
      if PeakUpTo(size, last, n - 1) > LiveBytes(size, last, n - 1, |size|) { at := before; }
    }
  }

  function TableBytes(live: map<nat, nat>, n: nat): nat {
    if n == 0 then 0 else TableBytes(live, n - 1) + if n - 1 in live then live[n - 1] else 0
  }

  lemma {:induction false} TableIsLive(live: map<nat, nat>, size: seq<nat>, last: seq<nat>, i: nat, n: nat)
    requires |size| == |last| && n <= |size|
    requires forall j: nat | j < n :: j in live <==> j <= i <= last[j]
    requires forall j: nat | j < n && j in live :: live[j] == size[j]
    ensures TableBytes(live, n) == LiveBytes(size, last, i, n)
  {
    if n > 0 {
      TableIsLive(live, size, last, i, n - 1);
    }
  }

  /**
   The sweep over a group's region: a value enters the table when it is produced and leaves
   after its last use. The result is exactly the largest total of values live at one position.
   */
  method ActivationPeak(size: seq<nat>, last: seq<nat>) returns (peak: nat)
    requires |size| == |last| && forall j | 0 <= j < |last| :: j <= last[j] < |last|
    ensures peak == PeakUpTo(size, last, |size|)
  {
    var live: map<nat, nat> := map[];
    peak := 0;
    for i := 0 to |size|
      invariant peak == PeakUpTo(size, last, i)
      invariant forall j: nat :: j in live <==> j < i <= last[j]
      invariant forall j: nat | j in live :: live[j] == size[j]
    {
      live := live[i := size[i]];
      TableIsLive(live, size, last, i, |size|);
      var here := TableBytes(live, |size|);
      peak := if here >= peak then here else peak;
      live := map j | j in live && last[j] > i :: live[j];
    }
  }

  // ---- Phase peaks ----

  datatype Sizes = Sizes(parameters: nat, buffers: nat, activation: nat, largestParameter: nat, largestValue: nat)

  function ForwardPeak(s: Sizes): nat { s.parameters + s.buffers + s.activation }
  function BackwardPeak(s: Sizes): nat { 2 * s.parameters + s.buffers + 2 * s.activation }
  function OptimizerPeak(s: Sizes): nat { 5 * s.largestParameter }
  function Most(a: nat, b: nat): nat { if a >= b then a else b }

  /**
   The least estimate that covers every phase with every margin. Forward holds the parameters, the
   buffers and the activations; backward holds parameters and activations twice; an optimizer step
   holds its largest parameter five times. The workspace of an operator is half of the largest
   value, or a tenth of what forward holds.
   */
  function WorkingSet(s: Sizes): (r: nat)
    ensures var half, tenth := s.largestValue / 2, (s.parameters + s.buffers + s.activation) / 10;
            && r >= s.parameters + s.buffers + s.activation + half && r >= s.parameters + s.buffers + s.activation + tenth
            && r >= 2 * s.parameters + s.buffers + 2 * s.activation + half && r >= 2 * s.parameters + s.buffers + 2 * s.activation + tenth
            && r >= 5 * s.largestParameter + half && r >= 5 * s.largestParameter + tenth
            && (r == s.parameters + s.buffers + s.activation + half || r == s.parameters + s.buffers + s.activation + tenth
                || r == 2 * s.parameters + s.buffers + 2 * s.activation + half || r == 2 * s.parameters + s.buffers + 2 * s.activation + tenth
                || r == 5 * s.largestParameter + half || r == 5 * s.largestParameter + tenth)
  {
    Most(Most(ForwardPeak(s), BackwardPeak(s)), OptimizerPeak(s)) + Most(s.largestValue / 2, ForwardPeak(s) / 10)
  }

  // ---- Handles across a repartition ----

  type Records = seq<map<nat, nat>>

  /** All entries in one table; a later record wins. */
  function Merge(records: Records): map<nat, nat> {
    if records == [] then map[] else Merge(records[..|records| - 1]) + records[|records| - 1]
  }

  /** Each new group gets the entries of the names it mentions. */
  function Redistribute(all: map<nat, nat>, names: seq<set<nat>>): (r: Records)
    ensures |r| == |names|
  {
    seq(|names|, i requires 0 <= i < |names| => map n | n in names[i] && n in all :: all[n])
  }

  ghost predicate HeldAt(records: Records, i: int, n: int, h: int) {
    0 <= i < |records| && n >= 0 && h >= 0 && n in records[i] && records[i][n] == h
  }

  /** Each handle sits in exactly one entry. */
  ghost predicate HeldOnce(records: Records) {
    forall i, j, n, m, h | HeldAt(records, i, n, h) && HeldAt(records, j, m, h) :: i == j && n == m
  }

  /** No name is in two groups. */
  ghost predicate NamesApart(names: seq<set<nat>>) {
    forall i, j | 0 <= i < |names| && 0 <= j < |names| && i != j :: names[i] !! names[j]
  }

  function NamesOf(records: Records): seq<set<nat>> {
    seq(|records|, i requires 0 <= i < |records| => records[i].Keys)
  }

  ghost predicate Covered(names: seq<set<nat>>, n: nat) {
    exists i :: 0 <= i < |names| && n in names[i]
  }

  lemma {:induction false} MergeLast(records: Records, n: nat)
    ensures n in Merge(records) <==> exists i :: 0 <= i < |records| && n in records[i]
    ensures n in Merge(records) ==> exists i :: HeldAt(records, i, n, Merge(records)[n])
  {
    if records != [] {
      var k := |records| - 1;
      MergeLast(records[..k], n);
      if n in records[k] {
        assert HeldAt(records, k, n, Merge(records)[n]);
      } else if n in Merge(records[..k]) {
        var i :| HeldAt(records[..k], i, n, Merge(records[..k])[n]);
        assert HeldAt(records, i, n, Merge(records)[n]);
      } else if i :| 0 <= i < |records| && n in records[i] {
        assert n in records[..k][i];
      }
    }
  }

  /** The new records mention the same names as the old ones. */
  ghost predicate SameNames(old_: Records, names: seq<set<nat>>) {
    forall n :: Covered(NamesOf(old_), n) <==> Covered(names, n)
  }

  /** Every handle of the old records is still held, by one entry only, and no handle appears that was not held. */
  ghost predicate Conserved(before: Records, after: Records) {
    && HeldOnce(after)
    && (forall i, n, h | HeldAt(before, i, n, h) :: exists j :: HeldAt(after, j, n, h))
    && (forall j, n, h | HeldAt(after, j, n, h) :: exists i :: HeldAt(before, i, n, h))
  }

  lemma Forward(before: Records, names: seq<set<nat>>)
    requires HeldOnce(before) && NamesApart(NamesOf(before)) && NamesApart(names) && SameNames(before, names)
    ensures Conserved(before, Redistribute(Merge(before), names))
  {
    var all := Merge(before);
    var after := Redistribute(all, names);
    forall j, n, h | HeldAt(after, j, n, h) ensures exists i :: HeldAt(before, i, n, h) {
      MergeLast(before, n);
    }
    forall i, n, h | HeldAt(before, i, n, h) ensures exists j :: HeldAt(after, j, n, h) {
      MergeLast(before, n);
      var k :| HeldAt(before, k, n, all[n]);
      assert NamesOf(before)[i] == before[i].Keys && NamesOf(before)[k] == before[k].Keys;
      assert k == i;
      assert Covered(NamesOf(before), n);
      var j :| 0 <= j < |names| && n in names[j];
      assert HeldAt(after, j, n, h);
    }
    forall i, j, n, m, h | HeldAt(after, i, n, h) && HeldAt(after, j, m, h) ensures i == j && n == m {
      MergeLast(before, n);
      MergeLast(before, m);
      var a :| HeldAt(before, a, n, h);
      var b :| HeldAt(before, b, m, h);
    }
  }

  lemma OldSharingLoses(before: Records, names: seq<set<nat>>, i: nat, k: nat, n: nat)
    requires HeldOnce(before) && SameNames(before, names) && i < |before| && k < |before| && i != k && n in before[i] && n in before[k]
    ensures !Conserved(before, Redistribute(Merge(before), names))
  {
    var all := Merge(before);
    var after := Redistribute(all, names);
    assert HeldAt(before, i, n, before[i][n]) && HeldAt(before, k, n, before[k][n]);
    MergeLast(before, n);
    assert before[i][n] != before[k][n];
    var h := if all[n] == before[i][n] then before[k][n] else before[i][n];
    assert forall j :: !HeldAt(after, j, n, h) by { MergeLast(before, n); }
    assert HeldAt(before, i, n, h) || HeldAt(before, k, n, h);
  }

  lemma NewSharingDuplicates(before: Records, names: seq<set<nat>>, i: nat, k: nat, n: nat)
    requires SameNames(before, names) && i < |names| && k < |names| && i != k && n in names[i] && n in names[k]
    ensures !Conserved(before, Redistribute(Merge(before), names))
  {
    assert Covered(names, n);
    assert Covered(NamesOf(before), n);
    var j :| 0 <= j < |NamesOf(before)| && n in NamesOf(before)[j];
    assert n in before[j];
    MergeLast(before, n);
    var after := Redistribute(Merge(before), names);
    assert HeldAt(after, i, n, Merge(before)[n]) && HeldAt(after, k, n, Merge(before)[n]);
  }

  /**
   Repartitioning keeps every handle in exactly one record if and only if no name belongs to
   two groups, before or after. `Repartition` shows which names meet this in every cut of a graph.
   */
  lemma ConservedIffApart(before: Records, names: seq<set<nat>>)
    requires HeldOnce(before) && SameNames(before, names)
    ensures Conserved(before, Redistribute(Merge(before), names)) <==> NamesApart(NamesOf(before)) && NamesApart(names)
  {
    hide Conserved, Merge, Redistribute, SameNames;
    if NamesApart(NamesOf(before)) && NamesApart(names) {
      Forward(before, names);
    } else if !NamesApart(names) {
      var i, j :| 0 <= i < |names| && 0 <= j < |names| && i != j && !(names[i] !! names[j]);
      var n :| n in names[i] && n in names[j];
      NewSharingDuplicates(before, names, i, j, n);
    } else {
      var old_ := NamesOf(before);
      var i, j :| 0 <= i < |old_| && 0 <= j < |old_| && i != j && !(old_[i] !! old_[j]);
      var n :| n in old_[i] && n in old_[j];
      OldSharingLoses(before, names, i, j, n);
    }
  }
}
