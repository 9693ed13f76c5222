/**
 The eviction policy: which resident tensors leave VRAM first, and how few of them.
 */
module Eviction {
  import opened Graph

  /** `nextUse` is `None` when the value is never used again. */
  datatype Candidate = Candidate(id: nat, size: nat, nextUse: Option<nat>, remaining: nat, cost: real, reuse: nat)

  /** A larger key is cheaper to evict: farther next use, larger per unit of value, fewer consumers, then the id. */
  datatype Key = Key(distance: Option<nat>, density: real, consumers: nat, id: nat)

  function Value(c: Candidate): (v: real)
    ensures v >= 1.0
  {
    var base := if c.cost > 1.0 then c.cost else 1.0;
    assert base * (1 + c.reuse) as real >= base by {
      assert base * (1 + c.reuse) as real == base + base * c.reuse as real;
    }
    base * (1 + c.reuse) as real
  }

  function EvictionKey(c: Candidate, step: nat): Key {
    Key(if c.nextUse.None? then None else Some(if c.nextUse.value > step then c.nextUse.value - step else 0),
        c.size as real / Value(c), c.remaining, c.id)
  }

  /** Infinity is the largest distance. */
  predicate Nearer(a: Option<nat>, b: Option<nat>) {
    a.Some? && (b.None? || a.value < b.value)
  }

  predicate Less(a: Key, b: Key) {
    || Nearer(a.distance, b.distance)
    || (a.distance == b.distance
        && (a.density < b.density
            || (a.density == b.density
                && (a.consumers > b.consumers || (a.consumers == b.consumers && a.id < b.id)))))
  }

  lemma LessTotal(a: Key, b: Key, c: Key)
    ensures Less(a, b) || Less(b, a) || a == b
    ensures !(Less(a, b) && Less(b, a))
    ensures Less(a, b) && Less(b, c) ==> Less(a, c)
  {
  }

  predicate Before(x: Candidate, y: Candidate, step: nat) {
    !Less(EvictionKey(x, step), EvictionKey(y, step))
  }

  // ---- What the order says of the candidates ----

  /** How many steps away a use is. */
  function StepsTo(use: nat, step: nat): nat {
    if use > step then use - step else 0
  }

  predicate EquallyFar(x: Candidate, y: Candidate, step: nat) {
    if x.nextUse.None? then y.nextUse.None? else y.nextUse.Some? && StepsTo(x.nextUse.value, step) == StepsTo(y.nextUse.value, step)
  }

  /** Bytes per unit of what it would cost to bring the tensor back as often as it is used. */
  function Density(c: Candidate): (d: real)
    ensures d * ((if c.cost > 1.0 then c.cost else 1.0) * (1 + c.reuse) as real) == c.size as real
  {
    c.size as real / Value(c)
  }

  /**
   `x` may leave before `y`: it is never used again or not needed earlier; at equal distance it is at
   least as dense; at equal density it has no more consumers left; and last, its id is no smaller.
   */
  predicate GoesFirst(x: Candidate, y: Candidate, step: nat) {
    && (x.nextUse.None? || (y.nextUse.Some? && StepsTo(y.nextUse.value, step) <= StepsTo(x.nextUse.value, step)))
    && (EquallyFar(x, y, step) ==>
          && Density(x) >= Density(y)
          && (Density(x) == Density(y) ==> x.remaining <= y.remaining && (x.remaining == y.remaining ==> x.id >= y.id)))
  }

  /** The same, strictly. */
  predicate Cheaper(x: Candidate, y: Candidate, step: nat) {
    || (y.nextUse.Some? && (x.nextUse.None? || StepsTo(y.nextUse.value, step) < StepsTo(x.nextUse.value, step)))
    || (EquallyFar(x, y, step)
        && (Density(x) > Density(y)
            || (Density(x) == Density(y) && (x.remaining < y.remaining || (x.remaining == y.remaining && x.id > y.id)))))
  }

  /** The order of the keys is that order of the candidates. */
  lemma OrderOnFields(x: Candidate, y: Candidate, step: nat)
    ensures Before(x, y, step) <==> GoesFirst(x, y, step)
    ensures Less(EvictionKey(y, step), EvictionKey(x, step)) <==> Cheaper(x, y, step)
  {
    assert EvictionKey(x, step).density == Density(x) && EvictionKey(y, step).density == Density(y);
  }

  /** Cheapest to evict first. */
  predicate Ranked(cs: seq<Candidate>, step: nat) {
    forall i, j | 0 <= i < j < |cs| :: Before(cs[i], cs[j], step)
  }

  function InsertRanked(c: Candidate, cs: seq<Candidate>, step: nat): (r: seq<Candidate>)
    ensures multiset(r) == multiset(cs) + multiset{c}
  {
    if cs == [] then [c]
    else if Before(c, cs[0], step) then [c] + cs
    else
      assert cs == [cs[0]] + cs[1..];
      [cs[0]] + InsertRanked(c, cs[1..], step)
  }

  function Rank(cs: seq<Candidate>, step: nat): (r: seq<Candidate>)
    ensures multiset(r) == multiset(cs)
  {
    if cs == [] then []
    else
      assert cs == cs[..|cs| - 1] + [cs[|cs| - 1]];
      InsertRanked(cs[|cs| - 1], Rank(cs[..|cs| - 1], step), step)
  }

  lemma {:induction false} InsertKeepsRanked(c: Candidate, cs: seq<Candidate>, step: nat)
    requires Ranked(cs, step)
    ensures Ranked(InsertRanked(c, cs, step), step)
  {
    hide Less, EvictionKey;
    if cs != [] {
      if Before(c, cs[0], step) {
        forall j | 0 <= j < |cs| ensures Before(c, cs[j], step) {
          if j > 0 { BeforeTransitive(c, cs[0], cs[j], step); }
        }
      } else {
        InsertKeepsRanked(c, cs[1..], step);
        var r := InsertRanked(c, cs[1..], step);
        forall j | 0 <= j < |r| ensures Before(cs[0], r[j], step) {
          assert r[j] in multiset(r);
          if r[j] == c { BeforeTotal(c, cs[0], step); } else {
            assert r[j] in cs[1..];
          }
        }
      }
    }
  }

  lemma BeforeTotal(x: Candidate, y: Candidate, step: nat)
    ensures Before(x, y, step) || Before(y, x, step)
  {
  }

  lemma BeforeTransitive(x: Candidate, y: Candidate, z: Candidate, step: nat)
    requires Before(x, y, step) && Before(y, z, step)
    ensures Before(x, z, step)
  {
    LessTotal(EvictionKey(x, step), EvictionKey(z, step), EvictionKey(y, step));
    LessTotal(EvictionKey(z, step), EvictionKey(y, step), EvictionKey(x, step));
    LessTotal(EvictionKey(y, step), EvictionKey(x, step), EvictionKey(z, step));
  }

  lemma {:induction false} RankRanks(cs: seq<Candidate>, step: nat)
    ensures Ranked(Rank(cs, step), step)
    ensures forall i, j | 0 <= i < j < |Rank(cs, step)| :: GoesFirst(Rank(cs, step)[i], Rank(cs, step)[j], step)
  {
    hide InsertRanked, Before, GoesFirst;
    if cs != [] {
      RankRanks(cs[..|cs| - 1], step);
      InsertKeepsRanked(cs[|cs| - 1], Rank(cs[..|cs| - 1], step), step);
    }
    var r := Rank(cs, step);
    forall i, j | 0 <= i < j < |r| ensures GoesFirst(r[i], r[j], step) { OrderOnFields(r[i], r[j], step); }
  }

  function Total(cs: seq<Candidate>): nat {
    if cs == [] then 0 else Total(cs[..|cs| - 1]) + cs[|cs| - 1].size
  }

  /**
   The cheapest candidates that together release enough, and no more of them than needed, cheapest
   first; nothing at all when everything together would not be enough.
   */
  method SelectEvictions(cs: seq<Candidate>, needed: nat, step: nat) returns (selected: seq<Candidate>, ghost left: seq<Candidate>)
    requires needed > 0
    ensures multiset(selected) + multiset(left) == multiset(cs)
    ensures selected != [] ==> Total(selected) >= needed && Total(selected[..|selected| - 1]) < needed
    ensures selected == [] <==> Total(cs) < needed
    ensures forall i, j | 0 <= i < j < |selected| :: GoesFirst(selected[i], selected[j], step)
    ensures forall x, y | x in selected && y in left :: GoesFirst(x, y, step)
  {
    hide Rank, Before, Total, GoesFirst;
    var ranked := Rank(cs, step);
    RankTotal(cs, step);
    selected := [];
    var released := 0;
    TotalStep(ranked, 0);
    for i := 0 to |ranked|
      invariant selected == ranked[..i] && released == Total(selected)
      invariant released < needed
    {
      TotalStep(ranked, i);
      selected := selected + [ranked[i]];
      released := released + ranked[i].size;
      if released >= needed {
        left := ranked[i + 1..];
        assert selected == ranked[..i + 1] && selected[..i] == ranked[..i] && ranked == selected + left;
        Prefix(cs, step, i + 1);
        TotalPrefix(ranked, i + 1);
        return;
      }
    }
    assert ranked[..|ranked|] == ranked;
    selected, left := [], cs;
  }

  lemma {:induction false} InsertTotal(c: Candidate, cs: seq<Candidate>, step: nat)
    ensures Total(InsertRanked(c, cs, step)) == Total(cs) + c.size
  {
    hide Before;
    if cs == [] {
      assert [c][..0] == [];
    } else if Before(c, cs[0], step) {
      TotalFirst(c, cs);
    } else {
      InsertTotal(c, cs[1..], step);
      TotalFirst(cs[0], InsertRanked(c, cs[1..], step));
      TotalFirst(cs[0], cs[1..]);
      assert cs == [cs[0]] + cs[1..];
    }
  }

  lemma {:induction false} TotalFirst(c: Candidate, cs: seq<Candidate>)
    ensures Total([c] + cs) == c.size + Total(cs)
  {
    if cs == [] {
      assert [c] + cs == [c] && [c][..0] == [];
    } else {
      assert ([c] + cs)[..|cs|] == [c] + cs[..|cs| - 1];
      TotalFirst(c, cs[..|cs| - 1]);
    }
  }

  /** Ranking keeps the total. */
  lemma {:induction false} RankTotal(cs: seq<Candidate>, step: nat)
    ensures Total(Rank(cs, step)) == Total(cs)
  {
    if cs != [] {
      RankTotal(cs[..|cs| - 1], step);
      InsertTotal(cs[|cs| - 1], Rank(cs[..|cs| - 1], step), step);
    }
  }

  lemma TotalStep(cs: seq<Candidate>, i: nat)
    ensures Total([]) == 0 && cs[..0] == []
    ensures i < |cs| ==> Total(cs[..i + 1]) == Total(cs[..i]) + cs[i].size
  {
    if i < |cs| { assert cs[..i + 1][..i] == cs[..i]; }
  }

  /** Nothing in a prefix of the ranking goes after what is left. */
  lemma Prefix(cs: seq<Candidate>, step: nat, n: nat)
    requires n <= |Rank(cs, step)|
    ensures forall x, y | x in Rank(cs, step)[..n] && y in Rank(cs, step)[n..] :: GoesFirst(x, y, step)
    ensures forall i, j | 0 <= i < j < n :: GoesFirst(Rank(cs, step)[..n][i], Rank(cs, step)[..n][j], step)
  {
    hide Rank, Before, GoesFirst;
    RankRanks(cs, step);
    var ranked := Rank(cs, step);
    forall x, y | x in ranked[..n] && y in ranked[n..] ensures GoesFirst(x, y, step) {
      var i :| 0 <= i < n && ranked[i] == x;
      var j :| 0 <= j < |ranked| - n && ranked[n..][j] == y;
      assert ranked[n + j] == y;
    }
  }

  lemma {:induction false} TotalPrefix(cs: seq<Candidate>, n: nat)
    requires n <= |cs|
    ensures Total(cs[..n]) <= Total(cs)
  {
    if n < |cs| {
      assert cs[..|cs| - 1][..n] == cs[..n];
      TotalPrefix(cs[..|cs| - 1], n);
    } else {
      assert cs[..n] == cs;
    }
  }

  /** Capacity is used strictly in the order VRAM, local RAM, remote RAM. */
  function Distribution(vram: nat, local: nat, size: nat): (r: (nat, nat, nat))
    ensures r.0 + r.1 + r.2 == size && r.0 <= vram && r.1 <= local
    ensures (r.1 > 0 ==> r.0 == vram) && (r.2 > 0 ==> r.0 == vram && r.1 == local)
  {
    var gpu := if size <= vram then size else vram;
    var ram := if size - gpu <= local then size - gpu else local;
    (gpu, ram, size - gpu - ram)
  }

  predicate DistinctIds(cs: seq<Candidate>) {
    forall i, j | 0 <= i < j < |cs| :: cs[i].id != cs[j].id
  }

  lemma CountTwice(cs: seq<Candidate>, i: nat, j: nat)
    requires i < j < |cs| && cs[i] == cs[j]
    ensures multiset(cs)[cs[i]] >= 2
  {
    assert cs == cs[..j] + cs[j..];
    assert cs[..j][i] == cs[i] && cs[j..][0] == cs[i];
    assert cs[i] in multiset(cs[..j]) && cs[i] in multiset(cs[j..]);
  }

  lemma {:induction false} CountOnce(cs: seq<Candidate>, c: Candidate)
    requires DistinctIds(cs)
    ensures multiset(cs)[c] <= 1
  {
    if cs != [] {
      var n := |cs| - 1;
      CountOnce(cs[..n], c);
      assert cs == cs[..n] + [cs[n]];
      assert cs[n] !in cs[..n];
    }
  }
}
