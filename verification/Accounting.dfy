/**
 RAM accounting with atomic counters. A reservation loads the counter, reads the budget, and
 swaps the counter if nobody else has in between; it counts globally first and for the job second;
 dropping gives back in the opposite order. Any number of these interleave, while the budget changes.
 */
module Accounting {
  import opened Graph

  const U64_MAX: nat := 0xFFFF_FFFF_FFFF_FFFF

  /** A reservation is counted globally from the start; for its job only in the middle phase. */
  datatype Phase = Held | ForJob(job: nat) | Dropping

  datatype Reservation = Reservation(bytes: nat, phase: Phase)

  /** A reservation under way: the counter it saw, and the budget it read if that was enough. */
  datatype Attempt = Attempt(bytes: nat, seen: nat, allowed: Option<nat>)

  datatype State = State(owned: nat, budget: nat, jobs: map<nat, nat>, live: map<nat, Reservation>, attempts: map<nat, Attempt>)

  datatype Step =
    | SetBudget(budget: nat)
    | Load(id: nat, bytes: nat)
    | ReadBudget(id: nat)
    | Swap(id: nat)
    | CountForJob(id: nat, job: nat)
    | UncountForJob(id: nat)
    | GiveBack(id: nat)

  function JobBytes(s: State, job: nat): nat {
    if job in s.jobs then s.jobs[job] else 0
  }

  predicate Enabled(s: State, e: Step) {
    match e
    case SetBudget(_) => true
    case Load(id, bytes) => id !in s.live && id !in s.attempts
    case ReadBudget(id) => id in s.attempts && s.attempts[id].allowed.None?
    case Swap(id) => id in s.attempts && s.attempts[id].allowed.Some? && id !in s.live
    case CountForJob(id, job) => id in s.live && s.live[id].phase == Held
    case UncountForJob(id) => id in s.live && s.live[id].phase.ForJob?
    case GiveBack(id) => id in s.live && !s.live[id].phase.ForJob?
  }

  /** What the reservation checks against the counter it saw and the budget it reads. */
  predicate Fits(seen: nat, bytes: nat, budget: nat) {
    seen + bytes <= U64_MAX && seen + bytes <= budget
  }

  /** The swap goes through only if the counter still is what was seen. */
  predicate Swaps(s: State, id: nat)
    requires id in s.attempts
  {
    s.attempts[id].seen == s.owned
  }

  /** The counters are words: subtraction wraps, addition wraps. */
  function Word(x: int): nat {
    x % (U64_MAX + 1)
  }

  function Next(s: State, e: Step): State
    requires Enabled(s, e)
  {
    match e
    case SetBudget(budget) => s.(budget := budget)
    case Load(id, bytes) => s.(attempts := s.attempts[id := Attempt(bytes, s.owned, None)])
    case ReadBudget(id) =>
      var a := s.attempts[id];
      if Fits(a.seen, a.bytes, s.budget) then s.(attempts := s.attempts[id := a.(allowed := Some(s.budget))])
      else s.(attempts := s.attempts - {id})
    case Swap(id) =>
      var a := s.attempts[id];
      if Swaps(s, id) then
        s.(owned := s.owned + a.bytes, live := s.live[id := Reservation(a.bytes, Held)], attempts := s.attempts - {id})
      else s.(attempts := s.attempts[id := Attempt(a.bytes, s.owned, None)])
    case CountForJob(id, job) =>
      s.(jobs := s.jobs[job := Word(JobBytes(s, job) + s.live[id].bytes)], live := s.live[id := s.live[id].(phase := ForJob(job))])
    case UncountForJob(id) =>
      var job := s.live[id].phase.job;
      s.(jobs := s.jobs[job := Word(JobBytes(s, job) - s.live[id].bytes)], live := s.live[id := s.live[id].(phase := Dropping)])
    case GiveBack(id) => s.(owned := Word(s.owned - s.live[id].bytes), live := s.live - {id})
  }

  // ---- Sums ----

  /** Which reservations a sum covers: all of them, or those counted for one of the given jobs. */
  datatype Cover = All | JobsIn(jobs: set<nat>)

  function Weight(r: Reservation, c: Cover): nat {
    match c
    case All => r.bytes
    case JobsIn(jobs) => if r.phase.ForJob? && r.phase.job in jobs then r.bytes else 0
  }

  ghost function SumOver(live: map<nat, Reservation>, ids: set<nat>, c: Cover): nat
    requires ids <= live.Keys
    decreases |ids|
  {
    if ids == {} then 0
    else
      var id :| id in ids;
      SumOver(live, ids - {id}, c) + Weight(live[id], c)
  }

  ghost function Sum(live: map<nat, Reservation>, c: Cover): nat {
    SumOver(live, live.Keys, c)
  }

  lemma {:induction false} SumTakeOut(live: map<nat, Reservation>, ids: set<nat>, c: Cover, id: nat)
    requires ids <= live.Keys && id in ids
    ensures SumOver(live, ids, c) == SumOver(live, ids - {id}, c) + Weight(live[id], c)
    decreases |ids|
  {
    var x :| x in ids && SumOver(live, ids, c) == SumOver(live, ids - {x}, c) + Weight(live[x], c);
    if x != id {
      SumTakeOut(live, ids - {x}, c, id);
      SumTakeOut(live, ids - {id}, c, x);
      assert ids - {x} - {id} == ids - {id} - {x};
    }
  }

  lemma {:induction false} SumSame(live: map<nat, Reservation>, live': map<nat, Reservation>, ids: set<nat>, c: Cover)
    requires ids <= live.Keys && ids <= live'.Keys && forall id | id in ids :: Weight(live'[id], c) == Weight(live[id], c)
    ensures SumOver(live', ids, c) == SumOver(live, ids, c)
    decreases |ids|
  {
    if ids != {} {
      var id :| id in ids;
      SumTakeOut(live, ids, c, id);
      SumTakeOut(live', ids, c, id);
      SumSame(live, live', ids - {id}, c);
    }
  }

  lemma SumPut(live: map<nat, Reservation>, c: Cover, id: nat, r: Reservation)
    ensures id in live ==> Sum(live[id := r], c) + Weight(live[id], c) == Sum(live, c) + Weight(r, c)
    ensures id !in live ==> Sum(live[id := r], c) == Sum(live, c) + Weight(r, c)
  {
    var live' := live[id := r];
    SumTakeOut(live', live'.Keys, c, id);
    if id in live {
      SumTakeOut(live, live.Keys, c, id);
      assert live'.Keys - {id} == live.Keys - {id};
    } else {
      assert live'.Keys - {id} == live.Keys;
    }
    SumSame(live, live', live'.Keys - {id}, c);
  }

  lemma SumRemove(live: map<nat, Reservation>, c: Cover, id: nat)
    requires id in live
    ensures Sum(live, c) == Sum(live - {id}, c) + Weight(live[id], c)
  {
    SumTakeOut(live, live.Keys, c, id);
    assert (live - {id}).Keys == live.Keys - {id};
    SumSame(live, live - {id}, live.Keys - {id}, c);
  }

  lemma {:induction false} SumLess(live: map<nat, Reservation>, ids: set<nat>, c: Cover, d: Cover)
    requires ids <= live.Keys && forall id | id in ids :: Weight(live[id], c) <= Weight(live[id], d)
    ensures SumOver(live, ids, c) <= SumOver(live, ids, d)
    decreases |ids|
  {
    if ids != {} {
      var id :| id in ids;
      SumTakeOut(live, ids, c, id);
      SumTakeOut(live, ids, d, id);
      SumLess(live, ids - {id}, c, d);
    }
  }

  lemma {:induction false} SumSplits(live: map<nat, Reservation>, ids: set<nat>, c: Cover, d: Cover, e: Cover)
    requires ids <= live.Keys && forall id | id in ids :: Weight(live[id], c) == Weight(live[id], d) + Weight(live[id], e)
    ensures SumOver(live, ids, c) == SumOver(live, ids, d) + SumOver(live, ids, e)
    decreases |ids|
  {
    if ids != {} {
      var id :| id in ids;
      SumTakeOut(live, ids, c, id);
      SumTakeOut(live, ids, d, id);
      SumTakeOut(live, ids, e, id);
      SumSplits(live, ids - {id}, c, d, e);
    }
  }

  lemma {:induction false} SumOfNone(live: map<nat, Reservation>, ids: set<nat>)
    requires ids <= live.Keys
    ensures SumOver(live, ids, JobsIn({})) == 0
    decreases |ids|
  {
    if ids != {} {
      var id :| id in ids;
      SumTakeOut(live, ids, JobsIn({}), id);
      SumOfNone(live, ids - {id});
    }
  }

  // ---- The invariant ----

  ghost predicate Inv(s: State) {
    && s.owned == Sum(s.live, All) && s.owned <= U64_MAX
    && (forall job :: JobBytes(s, job) == Sum(s.live, JobsIn({job})))
    && forall id | id in s.attempts && s.attempts[id].allowed.Some? ::
         Fits(s.attempts[id].seen, s.attempts[id].bytes, s.attempts[id].allowed.value)
  }

  lemma NoneLive(s: State)
    requires s == State(0, s.budget, map[], map[], map[])
    ensures Inv(s)
  {
  }

  lemma JobWithin(s: State, job: nat)
    requires Inv(s)
    ensures JobBytes(s, job) <= s.owned
  {
    SumLess(s.live, s.live.Keys, JobsIn({job}), All);
  }

  /** Every atomic step keeps the counters exact; no addition or subtraction ever wraps. */
  lemma NextKeeps(s: State, e: Step)
    requires Inv(s) && Enabled(s, e)
    ensures Inv(Next(s, e))
  {
    hide Sum;
    var s' := Next(s, e);
    match e
    case SetBudget(_) =>
    case Load(_, _) =>
    case ReadBudget(_) =>
    case Swap(id) =>
      if Swaps(s, id) {
        var r := Reservation(s.attempts[id].bytes, Held);
        SumPut(s.live, All, id, r);
        forall job ensures JobBytes(s', job) == Sum(s'.live, JobsIn({job})) { SumPut(s.live, JobsIn({job}), id, r); }
      }
    case CountForJob(id, job) =>
      MoveKeeps(s, id, ForJob(job));
    case UncountForJob(id) =>
      MoveKeeps(s, id, Dropping);
    case GiveBack(id) =>
      SumRemove(s.live, All, id);
      forall job ensures JobBytes(s', job) == Sum(s'.live, JobsIn({job})) { SumRemove(s.live, JobsIn({job}), id); }
  }

  lemma JobAtMost(live: map<nat, Reservation>, job: nat)
    ensures Sum(live, JobsIn({job})) <= Sum(live, All)
  {
    SumLess(live, live.Keys, JobsIn({job}), All);
  }

  /** Counting a reservation for a job, or no longer, moves its bytes in that job's counter only. */
  lemma MoveKeeps(s: State, id: nat, phase: Phase)
    requires Inv(s) && id in s.live
    requires (s.live[id].phase == Held && phase.ForJob?) || (s.live[id].phase.ForJob? && phase == Dropping)
    ensures Inv(Next(s, if phase.ForJob? then CountForJob(id, phase.job) else UncountForJob(id)))
  {
    hide Sum;
    var s' := Next(s, if phase.ForJob? then CountForJob(id, phase.job) else UncountForJob(id));
    var r := s.live[id].(phase := phase);
    SumPut(s.live, All, id, r);
    var job := if phase.ForJob? then phase.job else s.live[id].phase.job;
    SumPut(s.live, JobsIn({job}), id, r);
    JobAtMost(s'.live, job);
    forall j ensures JobBytes(s', j) == Sum(s'.live, JobsIn({j})) { SumPut(s.live, JobsIn({j}), id, r); }
  }

  function Run(s: State, steps: seq<Step>): Option<State> {
    if steps == [] then Some(s)
    else
      var r := Run(s, steps[..|steps| - 1]);
      if r.Some? && Enabled(r.value, steps[|steps| - 1]) then Some(Next(r.value, steps[|steps| - 1])) else None
  }

  lemma {:induction false} RunKeeps(s: State, steps: seq<Step>)
    requires Inv(s) && Run(s, steps).Some?
    ensures Inv(Run(s, steps).value)
  {
    hide Inv, Next, Enabled;
    if steps != [] {
      RunKeeps(s, steps[..|steps| - 1]);
      NextKeeps(Run(s, steps[..|steps| - 1]).value, steps[|steps| - 1]);
    }
  }

  ghost function SumJobs(s: State, jobs: set<nat>): nat
    decreases |jobs|
  {
    if jobs == {} then 0
    else
      var job :| job in jobs;
      SumJobs(s, jobs - {job}) + JobBytes(s, job)
  }

  lemma {:induction false} JobsAreCounted(s: State, jobs: set<nat>)
    requires Inv(s)
    ensures SumJobs(s, jobs) == Sum(s.live, JobsIn(jobs))
    decreases |jobs|
  {
    if jobs == {} {
      SumOfNone(s.live, s.live.Keys);
    } else {
      var job :| job in jobs && SumJobs(s, jobs) == SumJobs(s, jobs - {job}) + JobBytes(s, job);
      JobsAreCounted(s, jobs - {job});
      SumSplits(s.live, s.live.Keys, JobsIn(jobs), JobsIn(jobs - {job}), JobsIn({job}));
    }
  }

  /**
   Under every interleaving: `owned` is exactly the bytes of all live reservations, and the
   totals of any set of jobs together never exceed it.
   */
  lemma CountersAreExact(budget: nat, steps: seq<Step>, jobs: set<nat>)
    requires Run(State(0, budget, map[], map[], map[]), steps).Some?
    ensures var s := Run(State(0, budget, map[], map[], map[]), steps).value;
            s.owned == Sum(s.live, All) && SumJobs(s, jobs) <= s.owned
  {
    hide Run;
    NoneLive(State(0, budget, map[], map[], map[]));
    RunKeeps(State(0, budget, map[], map[], map[]), steps);
    var s := Run(State(0, budget, map[], map[], map[]), steps).value;
    JobsAreCounted(s, jobs);
    SumLess(s.live, s.live.Keys, JobsIn(jobs), All);
  }

  /**
   A reservation that succeeds never brings the counter above the budget it read. It can bring it
   above the budget of the moment: exactly when the budget was lowered below that after it was read.
   */
  lemma WithinBudgetRead(s: State, id: nat)
    requires Inv(s) && Enabled(s, Swap(id)) && Swaps(s, id)
    ensures var t, read := Next(s, Swap(id)), s.attempts[id].allowed.value;
            && t.owned == Sum(t.live, All) <= read
            && (t.owned > t.budget <==> s.budget < s.attempts[id].seen + s.attempts[id].bytes)
            && (s.budget >= read ==> t.owned <= t.budget)
  {
    hide Sum;
    NextKeeps(s, Swap(id));
  }

  /** A budget that is lowered between the check and the swap is exceeded. */
  lemma BudgetCanBeExceeded()
    ensures var steps := [Load(0, 10), ReadBudget(0), SetBudget(5), Swap(0)];
            var r := Run(State(0, 10, map[], map[], map[]), steps);
            r.Some? && r.value.owned == 10 && r.value.budget == 5 && 0 in r.value.live
  {
    var s := State(0, 10, map[], map[], map[]);
    var steps := [Load(0, 10), ReadBudget(0), SetBudget(5), Swap(0)];
    assert steps[..0] == [] && Run(s, []) == Some(s);
    assert steps[..1][..0] == [] && steps[..2][..1] == steps[..1] && steps[..3][..2] == steps[..2] && steps[..4][..3] == steps[..3];
    assert map[0 := Attempt(10, 0, None)][0 := Attempt(10, 0, Some(10))] == map[0 := Attempt(10, 0, Some(10))];
    assert Run(s, steps[..1]) == Some(s.(attempts := map[0 := Attempt(10, 0, None)]));
    assert Run(s, steps[..2]) == Some(s.(attempts := map[0 := Attempt(10, 0, Some(10))]));
    assert Run(s, steps[..3]) == Some(s.(budget := 5, attempts := map[0 := Attempt(10, 0, Some(10))]));
    assert steps[..4] == steps;
  }

  const HEADROOM: nat := 262144

  /** The check made before a block is allocated. */
  predicate LeavesHeadroom(s: State, size: nat) {
    size + HEADROOM <= if s.budget >= s.owned then s.budget - s.owned else 0
  }

  /** What a step takes off the room: bytes it reserves, less bytes it gives back, plus what it lowers the budget by. */
  function Taken(s: State, e: Step): int
    requires Enabled(s, e)
  {
    match e
    case SetBudget(budget) => s.budget - budget
    case Swap(id) => if Swaps(s, id) then s.attempts[id].bytes else 0
    case GiveBack(id) => 0 - s.live[id].bytes
    case _ => 0
  }

  function TakenBy(s: State, steps: seq<Step>): int
    requires Run(s, steps).Some?
  {
    if steps == [] then 0
    else
      var front := Run(s, steps[..|steps| - 1]).value;
      TakenBy(s, steps[..|steps| - 1]) + Taken(front, steps[|steps| - 1])
  }

  /** What other reservations and budget changes take is exactly what the room shrinks by. */
  lemma {:induction false} RoomShrinks(s: State, steps: seq<Step>)
    requires Inv(s) && Run(s, steps).Some?
    ensures var t := Run(s, steps).value; t.budget - t.owned == s.budget - s.owned - TakenBy(s, steps)
  {
    hide Inv;
    if steps != [] {
      var front, e := Run(s, steps[..|steps| - 1]).value, steps[|steps| - 1];
      RoomShrinks(s, steps[..|steps| - 1]);
      RunKeeps(s, steps[..|steps| - 1]);
      if e.GiveBack? { JobHolds(front, e.id); }
    }
  }

  /**
   The headroom check and the reservation are separate steps. A reservation that succeeds leaves
   the headroom if and only if what happened in between took no more than the slack the check saw.
   */
  lemma HeadroomLeft(s: State, between: seq<Step>, id: nat, size: nat)
    requires Inv(s) && LeavesHeadroom(s, size) && Run(s, between).Some?
    requires Enabled(Run(s, between).value, Swap(id)) && Swaps(Run(s, between).value, id)
    requires Run(s, between).value.attempts[id].bytes == size
    ensures var t := Next(Run(s, between).value, Swap(id));
            t.owned + HEADROOM <= t.budget <==> TakenBy(s, between) <= s.budget - s.owned - size - HEADROOM
  {
    hide Sum, Inv;
    RoomShrinks(s, between);
  }

  /** Two allocations that both pass the check can together use the headroom up. */
  lemma HeadroomCanBeLost()
    ensures var s := State(0, 2 * HEADROOM, map[], map[], map[]);
            var u := Reserved(Reserved(s, 0, HEADROOM), 1, HEADROOM);
            LeavesHeadroom(s, HEADROOM) && 0 in u.live && 1 in u.live && u.owned == u.budget
  {
  }

  /** A reservation that nobody interrupts. */
  function Reserved(s: State, id: nat, bytes: nat): State {
    if Fits(s.owned, bytes, s.budget) then s.(owned := s.owned + bytes, live := s.live[id := Reservation(bytes, Held)]) else s
  }

  /** Its three steps, taken one after the other, come to that. */
  lemma Uninterrupted(s: State, id: nat, bytes: nat)
    requires id !in s.live && id !in s.attempts
    ensures Enabled(s, Load(id, bytes)) && Enabled(Next(s, Load(id, bytes)), ReadBudget(id))
    ensures var t := Next(Next(s, Load(id, bytes)), ReadBudget(id));
            if Fits(s.owned, bytes, s.budget) then Enabled(t, Swap(id)) && Next(t, Swap(id)) == Reserved(s, id, bytes) else t == Reserved(s, id, bytes)
  {
    assert s.attempts[id := Attempt(bytes, s.owned, None)] - {id} == s.attempts;
    assert s.attempts[id := Attempt(bytes, s.owned, None)][id := Attempt(bytes, s.owned, Some(s.budget))] - {id} == s.attempts;
  }

  // ---- The counters in memory ----

  class RamAccounting {
    var owned: nat
    var budget: nat
    var jobs: map<nat, nat>
    var attempts: map<nat, Attempt>
    ghost var live: map<nat, Reservation>

    ghost function Abs(): State
      reads this
    {
      State(owned, budget, jobs, live, attempts)
    }

    constructor (budget: nat)
      ensures Abs() == State(0, budget, map[], map[], map[]) && Inv(Abs())
    {
      owned, this.budget, jobs, live, attempts := 0, budget, map[], map[], map[];
      new;
      NoneLive(Abs());
    }

    /** The load of the counter. */
    method LoadOwned(id: nat, bytes: nat)
      requires Inv(Abs()) && Enabled(Abs(), Load(id, bytes))
      modifies this`attempts
      ensures Abs() == Next(old(Abs()), Load(id, bytes)) && Inv(Abs())
      ensures attempts == old(attempts)[id := Attempt(bytes, owned, None)]
    {
      NextKeeps(Abs(), Load(id, bytes));
      attempts := attempts[id := Attempt(bytes, owned, None)];
    }

    /** The load of the budget: the attempt goes on only if the bytes fit. */
    method CheckBudget(id: nat) returns (fits: bool)
      requires Inv(Abs()) && Enabled(Abs(), ReadBudget(id))
      modifies this`attempts
      ensures Abs() == Next(old(Abs()), ReadBudget(id)) && Inv(Abs())
      ensures fits == Fits(old(attempts)[id].seen, old(attempts)[id].bytes, budget) && (fits <==> id in attempts)
      ensures var total := old(attempts)[id].seen + old(attempts)[id].bytes; fits <==> total <= U64_MAX && total <= budget
      ensures attempts - {id} == old(attempts) - {id} && (fits ==> attempts[id] == old(attempts)[id].(allowed := Some(budget)))
    {
      NextKeeps(Abs(), ReadBudget(id));
      var a := attempts[id];
      fits := a.seen + a.bytes <= U64_MAX && a.seen + a.bytes <= budget;
      attempts := if fits then attempts[id := a.(allowed := Some(budget))] else attempts - {id};
    }

    /** The compare-and-swap: it adds, or starts over with the counter it finds. */
    method CompareAndSwap(id: nat) returns (ok: bool)
      requires Inv(Abs()) && Enabled(Abs(), Swap(id))
      modifies this`owned, this`live, this`attempts
      ensures Abs() == Next(old(Abs()), Swap(id)) && Inv(Abs())
      ensures ok == (old(attempts)[id].seen == old(owned))
      ensures ok ==> owned <= old(attempts)[id].allowed.value
      ensures ok ==> owned == old(owned) + old(attempts)[id].bytes && live == old(live)[id := Reservation(old(attempts)[id].bytes, Held)]
                     && attempts == old(attempts) - {id}
      ensures !ok ==> owned == old(owned) && live == old(live) && attempts == old(attempts)[id := Attempt(old(attempts)[id].bytes, owned, None)]
    {
      NextKeeps(Abs(), Swap(id));
      var a := attempts[id];
      ok := a.seen == owned;
      if ok {
        owned := owned + a.bytes;
        live := live[id := Reservation(a.bytes, Held)];
        attempts := attempts - {id};
      } else {
        attempts := attempts[id := Attempt(a.bytes, owned, None)];
      }
    }

    /** A reservation that nobody interrupts is granted exactly when it fits. */
    method ReserveBytes(id: nat, bytes: nat) returns (ok: bool)
      requires Inv(Abs()) && id !in live && id !in attempts
      modifies this`owned, this`live, this`attempts
      ensures Abs() == Reserved(old(Abs()), id, bytes) && Inv(Abs())
      ensures ok == Fits(old(owned), bytes, budget)
      ensures ok <==> old(owned) + bytes <= U64_MAX && old(owned) + bytes <= budget
      ensures owned == if ok then old(owned) + bytes else old(owned)
    {
      hide Inv;
      Uninterrupted(Abs(), id, bytes);
      LoadOwned(id, bytes);
      ok := CheckBudget(id);
      if ok { ok := CompareAndSwap(id); }
    }

    method CountBytes(ghost id: nat, job: nat, bytes: nat)
      requires Inv(Abs()) && id in live && live[id] == Reservation(bytes, Held)
      modifies this`jobs, this`live
      ensures Abs() == Next(old(Abs()), CountForJob(id, job)) && Inv(Abs())
      ensures JobBytes(Abs(), job) == JobBytes(old(Abs()), job) + bytes && live == old(live)[id := Reservation(bytes, ForJob(job))]
    {
      hide Inv, Sum;
      JobWithin(Abs(), job);
      JobHolds(Abs(), id);
      NextKeeps(Abs(), CountForJob(id, job));
      jobs := jobs[job := Word((if job in jobs then jobs[job] else 0) + bytes)];
      live := live[id := live[id].(phase := ForJob(job))];
      JobHolds(Abs(), id);
    }

    /** Dropping a reservation: first the job's counter, then the global one. */
    method DropBytes(ghost id: nat, job: Option<nat>, bytes: nat)
      requires Inv(Abs()) && id in live && live[id].bytes == bytes
      requires live[id].phase == if job.Some? then ForJob(job.value) else Held
      modifies this`owned, this`jobs, this`live
      ensures Inv(Abs()) && live == old(live) - {id} && owned == old(owned) - bytes
      ensures job.Some? ==> JobBytes(Abs(), job.value) == JobBytes(old(Abs()), job.value) - bytes
    {
      hide Inv, Sum;
      if job.Some? { UncountBytes(id, job.value, bytes); }
      GiveBackBytes(id, bytes);
      assert live == old(live) - {id};
    }

    method UncountBytes(ghost id: nat, job: nat, bytes: nat)
      requires Inv(Abs()) && id in live && live[id] == Reservation(bytes, ForJob(job))
      modifies this`jobs, this`live
      ensures Inv(Abs()) && live == old(live)[id := Reservation(bytes, Dropping)]
      ensures JobBytes(Abs(), job) == JobBytes(old(Abs()), job) - bytes
    {
      hide Inv, Sum;
      JobHolds(Abs(), id);
      NextKeeps(Abs(), UncountForJob(id));
      jobs := jobs[job := Word((if job in jobs then jobs[job] else 0) - bytes)];
      live := live[id := live[id].(phase := Dropping)];
    }

    method GiveBackBytes(ghost id: nat, bytes: nat)
      requires Inv(Abs()) && id in live && live[id].bytes == bytes && !live[id].phase.ForJob?
      modifies this`owned, this`live
      ensures Inv(Abs()) && live == old(live) - {id} && owned == old(owned) - bytes
    {
      hide Inv, Sum;
      JobHolds(Abs(), id);
      NextKeeps(Abs(), GiveBack(id));
      owned := Word(owned - bytes);
      live := live - {id};
    }
  }

  lemma JobHolds(s: State, id: nat)
    requires Inv(s) && id in s.live
    ensures s.live[id].bytes <= s.owned <= U64_MAX
    ensures s.live[id].phase.ForJob? ==> s.live[id].bytes <= JobBytes(s, s.live[id].phase.job) <= s.owned
  {
    SumTakeOut(s.live, s.live.Keys, All, id);
    if s.live[id].phase.ForJob? {
      var job := s.live[id].phase.job;
      SumTakeOut(s.live, s.live.Keys, JobsIn({job}), id);
      JobWithin(s, job);
    }
  }
}
