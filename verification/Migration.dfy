/**
 Moving a committed block between nodes under the leader's compare-and-set. Every remote
 call is a request that executes at most once, at any later time, even after its caller has
 given up; its reply may be lost. Nodes keep reporting what they publish.

 Within a run nothing crashes, no lease expires and no user frees the block.
 */
module Migration {
  import opened Graph
  import opened Blocks

  /** Who allocated a copy: a migration, or nobody (the original upload). */
  type Origin = Option<nat>

  datatype Copy = Copy(generation: nat, ready: bool, bytes: seq<byte>, written: nat, published: bool, made: Origin)

  /** What the leader records: the owner of a generation, and which migration put it there. */
  datatype Record = Record(owner: nat, made: Origin)

  datatype Phase = Allocating | Copying | Registering | Publishing | Dropping | Finished | Failed | Abandoned

  /** One call of `migrate`: from the handle (source, generation) to a destination. */
  datatype Move = Move(src: nat, dst: nat, generation: nat, phase: Phase)

  datatype Request =
    | AllocateAt(m: nat)
    | WriteAt(m: nat, offset: nat, length: nat)
    | CommitAt(m: nat)
    | FreeAt(m: nat)
    | Register(m: nat)
    | PublishAt(m: nat)
    | Report(owner: nat, generation: nat)

  /** `history` maps every generation the leader has recorded to its record; the last one is current. */
  datatype State = State(
    original: seq<byte>, copies: map<nat, Copy>, generation: nat, history: map<nat, Record>, moves: map<nat, Move>,
    requests: set<Request>, accepted: set<Request>)

  datatype Step =
    | Begin(m: nat, src: nat, dst: nat, generation: nat)
    | ExecAllocate(m: nat)
    | StartCopy(m: nat)
    | SendWrite(m: nat, offset: nat, length: nat)
    | ExecWrite(m: nat, offset: nat, length: nat)
    | SendCommit(m: nat)
    | ExecCommit(m: nat)
    | SendRegister(m: nat)
    | FailCopy(m: nat)
    | ExecFree(m: nat)
    | ExecRegister(m: nat)
    | SendPublish(m: nat)
    | ExecPublish(m: nat)
    | ConfirmPublish(m: nat)
    | DropSource(m: nat)
    | GiveUp(m: nat)
    | SendReport(node: nat)
    | ExecReport(owner: nat, generation: nat)

  predicate Pending(s: State, r: Request, m: nat) {
    r in s.requests && m in s.moves
  }

  predicate In(s: State, m: nat, phase: Phase) {
    m in s.moves && s.moves[m].phase == phase
  }

  predicate Enabled(s: State, e: Step) {
    match e
    case Begin(m, src, dst, generation) =>
      // The handle is an entry the leader has recorded. The source still has it, or lost it after
      // the handle was looked up, in which case a newer generation is recorded.
      && m !in s.moves && src != dst && generation in s.history && s.history[generation].owner == src
      && ((src in s.copies && s.copies[src].ready && s.copies[src].generation == generation) || generation < s.generation)
    case ExecAllocate(m) => Pending(s, AllocateAt(m), m)
    case StartCopy(m) => In(s, m, Allocating) && AllocateAt(m) in s.accepted
    case SendWrite(m, offset, length) => In(s, m, Copying) && offset + length <= |s.original|
    case ExecWrite(m, offset, length) => Pending(s, WriteAt(m, offset, length), m)
    case SendCommit(m) => In(s, m, Copying)
    case ExecCommit(m) => Pending(s, CommitAt(m), m)
    case SendRegister(m) => In(s, m, Copying) && CommitAt(m) in s.accepted
    case FailCopy(m) => In(s, m, Copying)
    case ExecFree(m) => Pending(s, FreeAt(m), m)
    case ExecRegister(m) => Pending(s, Register(m), m)
    case SendPublish(m) => In(s, m, Registering) && Register(m) in s.accepted
    case ExecPublish(m) => Pending(s, PublishAt(m), m)
    case ConfirmPublish(m) => In(s, m, Publishing) && PublishAt(m) in s.accepted
    case DropSource(m) => In(s, m, Dropping)
    case GiveUp(m) => In(s, m, Allocating) || In(s, m, Registering) || In(s, m, Publishing)
    case SendReport(node) => node in s.copies && s.copies[node].published
    case ExecReport(owner, generation) => Report(owner, generation) in s.requests
  }

  // ---- Transitions ----

  function To(s: State, m: nat, phase: Phase): State
    requires m in s.moves
  {
    s.(moves := s.moves[m := s.moves[m].(phase := phase)])
  }

  function Send(s: State, r: Request): State {
    s.(requests := s.requests + {r})
  }

  /** The request has run; its caller may see the reply if it succeeded. */
  function Ran(s: State, r: Request, ok: bool): State {
    s.(requests := s.requests - {r}, accepted := if ok then s.accepted + {r} else s.accepted)
  }

  function WithCopy(s: State, node: nat, c: Copy): State {
    s.(copies := s.copies[node := c])
  }

  function Without(s: State, node: nat): State {
    s.(copies := s.copies - {node})
  }

  function Begun(s: State, m: nat, src: nat, dst: nat, generation: nat): State {
    Send(s.(moves := s.moves[m := Move(src, dst, generation, Allocating)]), AllocateAt(m))
  }

  function NewCopy(s: State, m: nat): Copy
    requires m in s.moves
  {
    Copy(s.moves[m].generation + 1, false, seq(|s.original|, _ => 0), 0, false, Some(m))
  }

  function RunAllocate(s: State, m: nat): State
    requires m in s.moves
  {
    var free := s.moves[m].dst !in s.copies;
    Ran(if free then WithCopy(s, s.moves[m].dst, NewCopy(s, m)) else s, AllocateAt(m), free)
  }

  predicate WriteFits(s: State, m: nat, offset: nat, length: nat)
    requires m in s.moves
  {
    && s.moves[m].dst in s.copies
    && var c := s.copies[s.moves[m].dst];
       !c.ready && c.generation == s.moves[m].generation + 1 && c.written == offset && offset + length <= |c.bytes| == |s.original|
  }

  function RunWrite(s: State, m: nat, offset: nat, length: nat): State
    requires m in s.moves
  {
    if WriteFits(s, m, offset, length) then
      var dst := s.moves[m].dst;
      var c := s.copies[dst];
      Ran(WithCopy(s, dst, c.(bytes := Splice(c.bytes, offset, s.original[offset..offset + length]), written := offset + length)),
          WriteAt(m, offset, length), true)
    else Ran(s, WriteAt(m, offset, length), false)
  }

  predicate CommitFits(s: State, m: nat, digest: seq<byte> -> Digest)
    requires m in s.moves
  {
    && s.moves[m].dst in s.copies
    && var c := s.copies[s.moves[m].dst];
       c.written == |c.bytes| && digest(c.bytes) == digest(s.original)
  }

  function RunCommit(s: State, m: nat, digest: seq<byte> -> Digest): State
    requires m in s.moves
  {
    if CommitFits(s, m, digest) then
      var dst := s.moves[m].dst;
      Ran(WithCopy(s, dst, s.copies[dst].(ready := true)), CommitAt(m), true)
    else Ran(s, CommitAt(m), false)
  }

  /** The leader's compare-and-set on the generation. */
  function RunRegister(s: State, m: nat): State
    requires m in s.moves
  {
    var move := s.moves[m];
    if s.generation == move.generation then
      Ran(s.(generation := move.generation + 1, history := s.history[move.generation + 1 := Record(move.dst, Some(m))]), Register(m), true)
    else Ran(s, Register(m), false)
  }

  function RunPublish(s: State, m: nat): State
    requires m in s.moves
  {
    var dst := s.moves[m].dst;
    if dst in s.copies && s.copies[dst].ready && s.copies[dst].generation == s.moves[m].generation + 1 then
      Ran(WithCopy(s, dst, s.copies[dst].(published := true)), PublishAt(m), true)
    else Ran(s, PublishAt(m), false)
  }

  /** An inventory report: the leader takes it unless it has recorded a newer generation. */
  function RunReport(s: State, owner: nat, generation: nat, made: Origin): State {
    if generation >= s.generation then
      Ran(s.(generation := generation, history := s.history[generation := Record(owner, made)]), Report(owner, generation), false)
    else Ran(s, Report(owner, generation), false)
  }

  function Next(s: State, e: Step, digest: seq<byte> -> Digest): State
    requires Enabled(s, e)
  {
    match e
    case Begin(m, src, dst, generation) => Begun(s, m, src, dst, generation)
    case ExecAllocate(m) => RunAllocate(s, m)
    case StartCopy(m) => To(s, m, Copying)
    case SendWrite(m, offset, length) => Send(s, WriteAt(m, offset, length))
    case ExecWrite(m, offset, length) => RunWrite(s, m, offset, length)
    case SendCommit(m) => Send(s, CommitAt(m))
    case ExecCommit(m) => RunCommit(s, m, digest)
    case SendRegister(m) => Send(To(s, m, Registering), Register(m))
    case FailCopy(m) => Send(To(s, m, Failed), FreeAt(m))
    case ExecFree(m) => Ran(Without(s, s.moves[m].dst), FreeAt(m), true)
    case ExecRegister(m) => RunRegister(s, m)
    case SendPublish(m) => Send(To(s, m, Publishing), PublishAt(m))
    case ExecPublish(m) => RunPublish(s, m)
    case ConfirmPublish(m) => To(s, m, Dropping)
    case DropSource(m) => To(Without(s, s.moves[m].src), m, Finished)
    case GiveUp(m) => To(s, m, if s.moves[m].phase.Allocating? then Failed else Abandoned)
    case SendReport(node) => Send(s, Report(node, s.copies[node].generation))
    case ExecReport(owner, generation) =>
      RunReport(s, owner, generation, if generation in s.history then s.history[generation].made else None)
  }

  // ---- The invariant ----

  /** Migration `m`'s compare-and-set has been accepted. */
  ghost predicate Accepted(s: State, m: nat) {
    m in s.moves && s.moves[m].generation + 1 in s.history
    && s.history[s.moves[m].generation + 1] == Record(s.moves[m].dst, Some(m))
  }

  /** The destination holds the copy `m` allocated. */
  ghost predicate OwnCopy(s: State, m: nat) {
    m in s.moves && s.moves[m].dst in s.copies && s.copies[s.moves[m].dst].made == Some(m)
  }

  ghost predicate MadeBy(s: State, node: nat, m: nat)
    requires node in s.copies
  {
    m in s.moves && s.moves[m].dst == node && s.copies[node].generation == s.moves[m].generation + 1 && AllocateAt(m) !in s.requests
  }

  ghost predicate CopyOk(s: State, node: nat)
    requires node in s.copies
  {
    var c := s.copies[node];
    && |c.bytes| == |s.original| && c.written <= |c.bytes| && c.bytes[..c.written] == s.original[..c.written]
    && (c.ready ==> c.bytes == s.original)
    && (c.published ==> c.generation in s.history && s.history[c.generation].owner == node)
    && (c.made.Some? ==> MadeBy(s, node, c.made.value))
  }

  /** The recorded owner has a committed copy of the recorded generation. */
  ghost predicate LeaderOk(s: State) {
    && (forall n: nat :: n in s.history <==> n <= s.generation)
    && var r := s.history[s.generation];
       && r.owner in s.copies && s.copies[r.owner].ready && s.copies[r.owner].generation == s.generation
       && s.copies[r.owner].made == r.made
  }

  ghost predicate HistoryOk(s: State) {
    forall n: nat | n in s.history && s.history[n].made.Some? :: Accepted(s, s.history[n].made.value) && s.moves[s.history[n].made.value].generation + 1 == n
  }

  ghost predicate MoveOk(s: State, m: nat)
    requires m in s.moves
  {
    var move := s.moves[m];
    && move.src != move.dst && move.generation in s.history && s.history[move.generation].owner == move.src
    && (move.phase.Allocating? && AllocateAt(m) in s.accepted ==> OwnCopy(s, m))
    && (move.phase.Allocating? ==> CommitAt(m) !in s.requests && CommitAt(m) !in s.accepted)
    && (move.phase.Allocating? ==> FreeAt(m) !in s.requests && Register(m) !in s.requests && !Accepted(s, m))
    && (move.phase.Copying? ==> OwnCopy(s, m) && !Accepted(s, m) && Register(m) !in s.requests && FreeAt(m) !in s.requests)
    && (move.phase.Copying? && CommitAt(m) in s.accepted ==> s.copies[move.dst].ready)
    && (move.phase.Failed? ==> !Accepted(s, m) && Register(m) !in s.requests)
    && (FreeAt(m) in s.requests ==> move.phase.Failed? && OwnCopy(s, m))
    && (Register(m) in s.requests ==> OwnCopy(s, m) && s.copies[move.dst].ready && !Accepted(s, m) && AllocateAt(m) !in s.requests)
    && (Register(m) in s.accepted || PublishAt(m) in s.requests || PublishAt(m) in s.accepted ==> Accepted(s, m))
    && (move.phase.Publishing? || move.phase.Dropping? || move.phase.Finished? ==> Accepted(s, m))
    && (move.phase.Dropping? || move.phase.Finished? ==> PublishAt(m) in s.accepted)
    && (Accepted(s, m) && !move.phase.Finished? ==> SourceKept(s, m))
  }

  /** Until it is dropped, the source copy of an accepted migration stays as it was. */
  ghost predicate SourceKept(s: State, m: nat)
    requires m in s.moves && s.moves[m].generation in s.history
  {
    var move := s.moves[m];
    && move.src in s.copies && s.copies[move.src].ready && s.copies[move.src].generation == move.generation
    && s.copies[move.src].made == s.history[move.generation].made
  }

  ghost predicate RequestsOk(s: State) {
    && (forall m | AllocateAt(m) in s.requests || FreeAt(m) in s.requests || Register(m) in s.requests :: m in s.moves)
    && (forall m | AllocateAt(m) in s.accepted || CommitAt(m) in s.accepted || Register(m) in s.accepted || PublishAt(m) in s.accepted :: m in s.moves)
    && (forall m | AllocateAt(m) in s.accepted :: AllocateAt(m) !in s.requests)
    && (forall m | PublishAt(m) in s.requests || CommitAt(m) in s.requests :: m in s.moves)
    && (forall o, n: nat | Report(o, n) in s.requests :: n in s.history && s.history[n].owner == o)
  }

  ghost predicate Inv(s: State) {
    && LeaderOk(s) && HistoryOk(s) && RequestsOk(s)
    && (forall node | node in s.copies :: CopyOk(s, node))
    && (forall m | m in s.moves :: MoveOk(s, m))
  }

  // ---- Every step keeps it ----

  /** What `m` has outstanding and what has been confirmed to it. */
  predicate SameOrLess(s: State, s': State, m: nat) {
    && (AllocateAt(m) in s'.requests ==> AllocateAt(m) in s.requests) && (CommitAt(m) in s'.requests ==> CommitAt(m) in s.requests)
    && (FreeAt(m) in s'.requests ==> FreeAt(m) in s.requests) && (Register(m) in s'.requests ==> Register(m) in s.requests)
    && (PublishAt(m) in s'.requests ==> PublishAt(m) in s.requests)
    && (AllocateAt(m) in s'.accepted ==> AllocateAt(m) in s.accepted) && (CommitAt(m) in s'.accepted ==> CommitAt(m) in s.accepted)
    && (Register(m) in s'.accepted ==> Register(m) in s.accepted) && (PublishAt(m) in s'.accepted <==> PublishAt(m) in s.accepted)
  }

  /** A migration is not affected by a step that leaves copies, history, its own phase and its own requests alone. */
  lemma MoveKept(s: State, s': State, m: nat)
    requires m in s.moves && m in s'.moves && MoveOk(s, m) && s'.moves[m] == s.moves[m]
    requires s'.copies == s.copies && s'.history == s.history && SameOrLess(s, s', m)
    ensures MoveOk(s', m)
  {
  }

  lemma CopyKept(s: State, s': State, node: nat)
    requires node in s.copies && CopyOk(s, node) && s'.copies == s.copies && s'.history == s.history && s'.original == s.original
    requires forall m | m in s.moves :: m in s'.moves && s'.moves[m].dst == s.moves[m].dst && s'.moves[m].generation == s.moves[m].generation
    requires forall m | m in s.moves && AllocateAt(m) in s'.requests :: AllocateAt(m) in s.requests
    ensures CopyOk(s', node)
  {
  }

  lemma BeginKeeps(s: State, m: nat, src: nat, dst: nat, generation: nat)
    requires Inv(s) && Enabled(s, Begin(m, src, dst, generation))
    ensures Inv(Begun(s, m, src, dst, generation))
  {
    hide LeaderOk, HistoryOk, RequestsOk, MoveOk, CopyOk;
    var s' := Begun(s, m, src, dst, generation);
    BeginHistory(s, m, src, dst, generation);
    forall n | n in s'.moves ensures MoveOk(s', n) {
      if n == m { BeginMove(s, m, src, dst, generation); } else { BeginOther(s, m, src, dst, generation, n); }
    }
    forall node | node in s'.copies ensures CopyOk(s', node) { BeginCopy(s, m, src, dst, generation, node); }
  }

  lemma BeginHistory(s: State, m: nat, src: nat, dst: nat, generation: nat)
    requires Inv(s) && Enabled(s, Begin(m, src, dst, generation))
    ensures var s' := Begun(s, m, src, dst, generation); LeaderOk(s') && HistoryOk(s') && RequestsOk(s')
  {
    hide MoveOk, CopyOk;
  }

  lemma BeginOther(s: State, m: nat, src: nat, dst: nat, generation: nat, n: nat)
    requires Inv(s) && Enabled(s, Begin(m, src, dst, generation)) && n in s.moves
    ensures n != m && MoveOk(Begun(s, m, src, dst, generation), n)
  {
    hide MoveOk, CopyOk, LeaderOk, HistoryOk, RequestsOk;
    MoveKept(s, Begun(s, m, src, dst, generation), n);
  }

  lemma BeginCopy(s: State, m: nat, src: nat, dst: nat, generation: nat, node: nat)
    requires Inv(s) && Enabled(s, Begin(m, src, dst, generation)) && node in s.copies
    ensures CopyOk(Begun(s, m, src, dst, generation), node)
  {
    hide MoveOk, LeaderOk, HistoryOk, RequestsOk;
    assert CopyOk(s, node);
  }

  lemma BeginMove(s: State, m: nat, src: nat, dst: nat, generation: nat)
    requires Inv(s) && Enabled(s, Begin(m, src, dst, generation))
    ensures MoveOk(Begun(s, m, src, dst, generation), m)
  {
    hide CopyOk;
  }

  lemma AllocateKeepsMove(s: State, m: nat, n: nat)
    requires Inv(s) && Pending(s, AllocateAt(m), m) && n in RunAllocate(s, m).moves
    ensures MoveOk(RunAllocate(s, m), n)
  {
    hide CopyOk, RequestsOk;
    assert MoveOk(s, m);
    if n in s.moves { assert MoveOk(s, n); }
  }

  lemma AllocateKeepsCopy(s: State, m: nat, node: nat)
    requires Inv(s) && Pending(s, AllocateAt(m), m) && node in RunAllocate(s, m).copies
    ensures CopyOk(RunAllocate(s, m), node)
  {
    hide MoveOk, HistoryOk;
    if node in s.copies { assert CopyOk(s, node); }
  }

  lemma AllocateHistory(s: State, m: nat)
    requires Inv(s) && Pending(s, AllocateAt(m), m)
    ensures LeaderOk(RunAllocate(s, m)) && HistoryOk(RunAllocate(s, m)) && RequestsOk(RunAllocate(s, m))
  {
    hide MoveOk, CopyOk;
  }

  lemma AllocateKeeps(s: State, m: nat)
    requires Inv(s) && Pending(s, AllocateAt(m), m)
    ensures Inv(RunAllocate(s, m))
  {
    hide LeaderOk, HistoryOk, RequestsOk, MoveOk, CopyOk;
    var s' := RunAllocate(s, m);
    AllocateHistory(s, m);
    forall n | n in s'.moves ensures MoveOk(s', n) { AllocateKeepsMove(s, m, n); }
    forall node | node in s'.copies ensures CopyOk(s', node) { AllocateKeepsCopy(s, m, node); }
  }

  /** A step that moves only migration `m` along, without touching copies or the leader. */
  lemma PhaseKeeps(s: State, s': State, m: nat)
    requires Inv(s) && m in s.moves && m in s'.moves && MoveOk(s', m) && RequestsOk(s')
    requires s'.copies == s.copies && s'.history == s.history && s'.generation == s.generation && s'.original == s.original
    requires s'.moves.Keys == s.moves.Keys && s'.moves[m] == s.moves[m].(phase := s'.moves[m].phase)
    requires forall n | n in s.moves && n != m :: s'.moves[n] == s.moves[n]
    requires forall n | n in s.moves && n != m :: SameOrLess(s, s', n)
    requires AllocateAt(m) in s'.requests ==> AllocateAt(m) in s.requests
    ensures Inv(s')
  {
    hide MoveOk, CopyOk, RequestsOk;
    forall n | n in s'.moves ensures MoveOk(s', n) {
      if n != m { MoveKept(s, s', n); }
    }
    forall node | node in s'.copies ensures CopyOk(s', node) {
      CopyKept(s, s', node);
    }
  }

  lemma StartCopyKeeps(s: State, m: nat)
    requires Inv(s) && (In(s, m, Allocating) && AllocateAt(m) in s.accepted)
    ensures Inv(To(s, m, Copying))
  {
    hide LeaderOk, HistoryOk;
    assert MoveOk(s, m);
    hide CopyOk;
    PhaseKeeps(s, To(s, m, Copying), m);
  }

  lemma SendWriteKeeps(s: State, m: nat, offset: nat, length: nat)
    requires Inv(s) && (In(s, m, Copying))
    ensures Inv(Send(s, WriteAt(m, offset, length)))
  {
    hide LeaderOk, HistoryOk;
    assert MoveOk(s, m);
    hide CopyOk;
    PhaseKeeps(s, Send(s, WriteAt(m, offset, length)), m);
  }

  lemma SendCommitKeeps(s: State, m: nat)
    requires Inv(s) && (In(s, m, Copying))
    ensures Inv(Send(s, CommitAt(m)))
  {
    hide LeaderOk, HistoryOk;
    assert MoveOk(s, m);
    hide CopyOk;
    PhaseKeeps(s, Send(s, CommitAt(m)), m);
  }

  lemma SendRegisterKeeps(s: State, m: nat)
    requires Inv(s) && (In(s, m, Copying) && CommitAt(m) in s.accepted)
    ensures Inv(Send(To(s, m, Registering), Register(m)))
  {
    hide LeaderOk, HistoryOk;
    assert MoveOk(s, m);
    assert CopyOk(s, s.moves[m].dst);
    hide CopyOk;
    PhaseKeeps(s, Send(To(s, m, Registering), Register(m)), m);
  }

  lemma FailCopyKeeps(s: State, m: nat)
    requires Inv(s) && (In(s, m, Copying))
    ensures Inv(Send(To(s, m, Failed), FreeAt(m)))
  {
    hide LeaderOk, HistoryOk;
    assert MoveOk(s, m);
    hide CopyOk;
    PhaseKeeps(s, Send(To(s, m, Failed), FreeAt(m)), m);
  }

  lemma SendPublishKeeps(s: State, m: nat)
    requires Inv(s) && (In(s, m, Registering) && Register(m) in s.accepted)
    ensures Inv(Send(To(s, m, Publishing), PublishAt(m)))
  {
    hide LeaderOk, HistoryOk;
    assert MoveOk(s, m);
    hide CopyOk;
    PhaseKeeps(s, Send(To(s, m, Publishing), PublishAt(m)), m);
  }

  lemma ConfirmPublishKeeps(s: State, m: nat)
    requires Inv(s) && (In(s, m, Publishing) && PublishAt(m) in s.accepted)
    ensures Inv(To(s, m, Dropping))
  {
    hide LeaderOk, HistoryOk;
    assert MoveOk(s, m);
    hide CopyOk;
    PhaseKeeps(s, To(s, m, Dropping), m);
  }

  lemma GiveUpKeeps(s: State, m: nat)
    requires Inv(s) && (In(s, m, Allocating) || In(s, m, Registering) || In(s, m, Publishing))
    ensures Inv(To(s, m, if s.moves[m].phase.Allocating? then Failed else Abandoned))
  {
    hide LeaderOk, HistoryOk;
    assert MoveOk(s, m);
    hide CopyOk;
    PhaseKeeps(s, To(s, m, if s.moves[m].phase.Allocating? then Failed else Abandoned), m);
  }

  lemma WriteKeepsMove(s: State, m: nat, offset: nat, length: nat, n: nat)
    requires Inv(s) && m in s.moves && n in RunWrite(s, m, offset, length).moves
    ensures MoveOk(RunWrite(s, m, offset, length), n)
  {
    hide CopyOk, RequestsOk, Splice, HistoryOk;
    if n in s.moves { assert MoveOk(s, n); }
  }

  lemma WriteKeepsCopy(s: State, m: nat, offset: nat, length: nat, node: nat)
    requires Inv(s) && m in s.moves && node in RunWrite(s, m, offset, length).copies
    ensures CopyOk(RunWrite(s, m, offset, length), node)
  {
    hide MoveOk, RequestsOk, HistoryOk;
    assert CopyOk(s, node);
    if WriteFits(s, m, offset, length) && node == s.moves[m].dst {
      var c := s.copies[node];
      SplicePrefix(c.bytes, offset, s.original[offset..offset + length], offset);
      assert s.original[..offset + length] == s.original[..offset] + s.original[offset..offset + length];
    }
  }

  lemma WriteHistory(s: State, m: nat, offset: nat, length: nat)
    requires Inv(s) && m in s.moves
    ensures LeaderOk(RunWrite(s, m, offset, length)) && HistoryOk(RunWrite(s, m, offset, length)) && RequestsOk(RunWrite(s, m, offset, length))
  {
    hide Splice;
    hide MoveOk, CopyOk;
  }

  lemma WriteKeeps(s: State, m: nat, offset: nat, length: nat)
    requires Inv(s) && m in s.moves
    ensures Inv(RunWrite(s, m, offset, length))
  {
    hide LeaderOk, HistoryOk, RequestsOk, MoveOk, CopyOk;
    var s' := RunWrite(s, m, offset, length);
    WriteHistory(s, m, offset, length);
    forall n | n in s'.moves ensures MoveOk(s', n) { WriteKeepsMove(s, m, offset, length, n); }
    forall node | node in s'.copies ensures CopyOk(s', node) { WriteKeepsCopy(s, m, offset, length, node); }
  }

  /** A copy that is ready after a commit is the original: it was written front to back from it. */
  lemma CommitKeepsMove(s: State, m: nat, digest: seq<byte> -> Digest, n: nat)
    requires Inv(s) && Pending(s, CommitAt(m), m) && n in RunCommit(s, m, digest).moves
    ensures MoveOk(RunCommit(s, m, digest), n)
  {
    hide CopyOk, RequestsOk, LeaderOk, HistoryOk, CommitFits;
    assert MoveOk(s, n);
    hide Inv;
  }

  lemma CommitKeepsCopy(s: State, m: nat, digest: seq<byte> -> Digest, node: nat)
    requires Inv(s) && Pending(s, CommitAt(m), m) && node in RunCommit(s, m, digest).copies
    ensures CopyOk(RunCommit(s, m, digest), node)
  {
    hide MoveOk, RequestsOk, HistoryOk;
    assert CopyOk(s, node);
    if CommitFits(s, m, digest) && node == s.moves[m].dst {
      assert s.copies[node].bytes[..|s.original|] == s.copies[node].bytes && s.original[..|s.original|] == s.original;
    }
  }

  lemma CommitHistory(s: State, m: nat, digest: seq<byte> -> Digest)
    requires Inv(s) && Pending(s, CommitAt(m), m)
    ensures LeaderOk(RunCommit(s, m, digest)) && HistoryOk(RunCommit(s, m, digest)) && RequestsOk(RunCommit(s, m, digest))
  {
    hide MoveOk, CopyOk;
  }

  lemma CommitKeeps(s: State, m: nat, digest: seq<byte> -> Digest)
    requires Inv(s) && Pending(s, CommitAt(m), m)
    ensures Inv(RunCommit(s, m, digest))
  {
    hide LeaderOk, HistoryOk, RequestsOk, MoveOk, CopyOk;
    var s' := RunCommit(s, m, digest);
    CommitHistory(s, m, digest);
    forall n | n in s'.moves ensures MoveOk(s', n) { CommitKeepsMove(s, m, digest, n); }
    forall node | node in s'.copies ensures CopyOk(s', node) { CommitKeepsCopy(s, m, digest, node); }
  }

  lemma FreeKeepsMove(s: State, m: nat, n: nat)
    requires Inv(s) && Pending(s, FreeAt(m), m) && n in Ran(Without(s, s.moves[m].dst), FreeAt(m), true).moves
    ensures MoveOk(Ran(Without(s, s.moves[m].dst), FreeAt(m), true), n)
  {
    hide CopyOk, RequestsOk, LeaderOk;
    assert MoveOk(s, m) && MoveOk(s, n);
    hide Inv;
  }

  lemma FreeKeepsCopy(s: State, m: nat, node: nat)
    requires Inv(s) && Pending(s, FreeAt(m), m) && node in Ran(Without(s, s.moves[m].dst), FreeAt(m), true).copies
    ensures CopyOk(Ran(Without(s, s.moves[m].dst), FreeAt(m), true), node)
  {
    hide MoveOk, RequestsOk, HistoryOk;
    assert CopyOk(s, node);
  }

  lemma FreeHistory(s: State, m: nat)
    requires Inv(s) && Pending(s, FreeAt(m), m)
    ensures LeaderOk(Ran(Without(s, s.moves[m].dst), FreeAt(m), true)) && HistoryOk(Ran(Without(s, s.moves[m].dst), FreeAt(m), true)) && RequestsOk(Ran(Without(s, s.moves[m].dst), FreeAt(m), true))
  {
    assert MoveOk(s, m);
    hide MoveOk, CopyOk;
  }

  lemma FreeKeeps(s: State, m: nat)
    requires Inv(s) && Pending(s, FreeAt(m), m)
    ensures Inv(Ran(Without(s, s.moves[m].dst), FreeAt(m), true))
  {
    hide LeaderOk, HistoryOk, RequestsOk, MoveOk, CopyOk;
    var s' := Ran(Without(s, s.moves[m].dst), FreeAt(m), true);
    FreeHistory(s, m);
    forall n | n in s'.moves ensures MoveOk(s', n) { FreeKeepsMove(s, m, n); }
    forall node | node in s'.copies ensures CopyOk(s', node) { FreeKeepsCopy(s, m, node); }
  }

  lemma RegisterKeepsMove(s: State, m: nat, n: nat)
    requires Inv(s) && Pending(s, Register(m), m) && n in RunRegister(s, m).moves
    ensures MoveOk(RunRegister(s, m), n)
  {
    hide CopyOk, RequestsOk;
    assert MoveOk(s, m);
    if n in s.moves { assert MoveOk(s, n); }
  }

  lemma RegisterKeepsCopy(s: State, m: nat, node: nat)
    requires Inv(s) && Pending(s, Register(m), m) && node in RunRegister(s, m).copies
    ensures CopyOk(RunRegister(s, m), node)
  {
    hide MoveOk, RequestsOk, HistoryOk;
    assert CopyOk(s, node);
  }

  lemma RegisterRequests(s: State, m: nat)
    requires Inv(s) && Pending(s, Register(m), m)
    ensures RequestsOk(RunRegister(s, m))
  {
    hide MoveOk, CopyOk, HistoryOk;
  }

  lemma RegisterLeader(s: State, m: nat)
    requires Inv(s) && Pending(s, Register(m), m)
    ensures LeaderOk(RunRegister(s, m))
  {
    hide HistoryOk, RequestsOk;
    assert MoveOk(s, m);
    assert CopyOk(s, s.moves[m].dst);
  }

  lemma RegisterHistory(s: State, m: nat)
    requires Inv(s) && Pending(s, Register(m), m)
    ensures HistoryOk(RunRegister(s, m))
  {
    hide MoveOk, CopyOk, RequestsOk;
    var s' := RunRegister(s, m);
    forall n: nat | n in s'.history && s'.history[n].made.Some?
      ensures Accepted(s', s'.history[n].made.value) && s'.moves[s'.history[n].made.value].generation + 1 == n
    {
      if n in s.history { assert s.history[n].made.Some? ==> Accepted(s, s.history[n].made.value); }
    }
  }

  lemma RegisterKeeps(s: State, m: nat)
    requires Inv(s) && Pending(s, Register(m), m)
    ensures Inv(RunRegister(s, m))
  {
    hide LeaderOk, HistoryOk, RequestsOk, MoveOk, CopyOk;
    RegisterRequests(s, m);
    RegisterLeader(s, m);
    RegisterHistory(s, m);
    forall n | n in RunRegister(s, m).moves ensures MoveOk(RunRegister(s, m), n) { RegisterKeepsMove(s, m, n); }
    forall node | node in RunRegister(s, m).copies ensures CopyOk(RunRegister(s, m), node) { RegisterKeepsCopy(s, m, node); }
  }

  lemma PublishKeepsMove(s: State, m: nat, n: nat)
    requires Inv(s) && Pending(s, PublishAt(m), m) && n in RunPublish(s, m).moves
    ensures MoveOk(RunPublish(s, m), n)
  {
    hide CopyOk, RequestsOk, LeaderOk, HistoryOk;
    assert MoveOk(s, m) && MoveOk(s, n);
    hide Inv;
  }

  lemma PublishKeepsCopy(s: State, m: nat, node: nat)
    requires Inv(s) && Pending(s, PublishAt(m), m) && node in RunPublish(s, m).copies
    ensures CopyOk(RunPublish(s, m), node)
  {
    hide RequestsOk;
    assert MoveOk(s, m);
    hide MoveOk;
    assert CopyOk(s, node);
  }

  lemma PublishHistory(s: State, m: nat)
    requires Inv(s) && Pending(s, PublishAt(m), m)
    ensures LeaderOk(RunPublish(s, m)) && HistoryOk(RunPublish(s, m)) && RequestsOk(RunPublish(s, m))
  {
    hide MoveOk, CopyOk;
  }

  lemma PublishKeeps(s: State, m: nat)
    requires Inv(s) && Pending(s, PublishAt(m), m)
    ensures Inv(RunPublish(s, m))
  {
    hide LeaderOk, HistoryOk, RequestsOk, MoveOk, CopyOk;
    var s' := RunPublish(s, m);
    PublishHistory(s, m);
    forall n | n in s'.moves ensures MoveOk(s', n) { PublishKeepsMove(s, m, n); }
    forall node | node in s'.copies ensures CopyOk(s', node) { PublishKeepsCopy(s, m, node); }
  }

  /** Dropping the source of an accepted migration takes nothing another migration relies on. */
  lemma DropMoveKeeps(s: State, m: nat, n: nat)
    requires Inv(s) && In(s, m, Dropping) && n in s.moves && n != m
    ensures MoveOk(To(Without(s, s.moves[m].src), m, Finished), n)
  {
    hide CopyOk, RequestsOk;
    assert MoveOk(s, m);
    assert MoveOk(s, n);
    var src := s.moves[m].src;
    assert SourceKept(s, m);
    var made := s.copies[src].made;
    assert made.Some? ==> Accepted(s, made.value);
  }

  lemma DropKeeps(s: State, m: nat)
    requires Inv(s) && In(s, m, Dropping)
    ensures Inv(To(Without(s, s.moves[m].src), m, Finished))
  {
    var s' := To(Without(s, s.moves[m].src), m, Finished);
    hide RequestsOk;
    assert RequestsOk(s') by { PlainRequests(s, s'); }
    DropOwn(s, m);
    forall n | n in s'.moves ensures MoveOk(s', n) {
      if n != m { DropMoveKeeps(s, m, n); }
    }
    hide MoveOk;
    forall node | node in s'.copies ensures CopyOk(s', node) {
      hide MoveOk, RequestsOk;
      assert CopyOk(s, node);
    }
    DropHistory(s, m);
  }

  lemma PlainRequests(s: State, s': State)
    requires RequestsOk(s) && s'.requests == s.requests && s'.accepted == s.accepted && s'.history == s.history
    requires s'.moves.Keys == s.moves.Keys
    ensures RequestsOk(s')
  {
  }

  lemma DropOwn(s: State, m: nat)
    requires Inv(s) && In(s, m, Dropping)
    ensures MoveOk(To(Without(s, s.moves[m].src), m, Finished), m)
  {
    assert MoveOk(s, m);
  }

  lemma DropHistory(s: State, m: nat)
    requires Inv(s) && In(s, m, Dropping)
    ensures HistoryOk(To(Without(s, s.moves[m].src), m, Finished)) && LeaderOk(To(Without(s, s.moves[m].src), m, Finished))
  {
    hide CopyOk, RequestsOk;
    assert MoveOk(s, m);
    assert SourceKept(s, m);
    assert s.moves[m].generation + 1 in s.history;
    var s' := To(Without(s, s.moves[m].src), m, Finished);
    forall n: nat | n in s'.history && s'.history[n].made.Some?
      ensures Accepted(s', s'.history[n].made.value) && s'.moves[s'.history[n].made.value].generation + 1 == n
    {
      assert Accepted(s, s.history[n].made.value);
    }
  }

  /** However late or repeated, an inventory report changes nothing: the leader already knows better or the same. */
  lemma ReportChangesNothing(s: State, owner: nat, generation: nat)
    requires Inv(s) && Report(owner, generation) in s.requests
    ensures generation in s.history
    ensures RunReport(s, owner, generation, s.history[generation].made) == Ran(s, Report(owner, generation), false)
  {
    assert s.history[generation] == Record(owner, s.history[generation].made);
  }

  lemma ReportKeeps(s: State, s': State)
    requires Inv(s) && s' == s.(requests := s'.requests) && RequestsOk(s')
    requires forall m | m in s.moves :: SameOrLess(s, s', m)
    ensures Inv(s')
  {
    hide MoveOk, CopyOk, RequestsOk;
    forall m | m in s'.moves ensures MoveOk(s', m) { MoveKept(s, s', m); }
    forall node | node in s'.copies ensures CopyOk(s', node) { CopyKept(s, s', node); }
  }

  // ---- Whole runs ----

  function Initial(owner: nat, original: seq<byte>): State {
    State(original, map[owner := Copy(0, true, original, |original|, true, None)], 0, map[0 := Record(owner, None)], map[], {}, {})
  }

  lemma InitialInv(owner: nat, original: seq<byte>)
    ensures Inv(Initial(owner, original))
  {
  }

  lemma NextKeeps(s: State, e: Step, digest: seq<byte> -> Digest)
    requires Inv(s) && Enabled(s, e)
    ensures Inv(Next(s, e, digest))
  {
    hide Inv, RunAllocate, RunWrite, RunCommit, RunRegister, RunPublish, RunReport, Begun, To, Send, Ran, Without, In, Pending;
    match e
    case Begin(m, src, dst, generation) => BeginKeeps(s, m, src, dst, generation);
    case ExecAllocate(m) => AllocateKeeps(s, m);
    case StartCopy(m) => StartCopyKeeps(s, m);
    case SendWrite(m, offset, length) => SendWriteKeeps(s, m, offset, length);
    case ExecWrite(m, offset, length) => PendingMoves(s, WriteAt(m, offset, length), m); WriteKeeps(s, m, offset, length);
    case SendCommit(m) => SendCommitKeeps(s, m);
    case ExecCommit(m) => CommitKeeps(s, m, digest);
    case SendRegister(m) => SendRegisterKeeps(s, m);
    case FailCopy(m) => FailCopyKeeps(s, m);
    case ExecFree(m) => FreeKeeps(s, m);
    case ExecRegister(m) => RegisterKeeps(s, m);
    case SendPublish(m) => SendPublishKeeps(s, m);
    case ExecPublish(m) => PublishKeeps(s, m);
    case ConfirmPublish(m) => ConfirmPublishKeeps(s, m);
    case DropSource(m) => DropKeeps(s, m);
    case GiveUp(m) => GiveUpKeeps(s, m);
    case SendReport(node) => SendReportKeeps(s, node);
    case ExecReport(owner, generation) => ExecReportKeeps(s, owner, generation);
  }

  lemma PendingMoves(s: State, r: Request, m: nat)
    requires Pending(s, r, m)
    ensures m in s.moves
  {
  }

  lemma SendReportKeeps(s: State, node: nat)
    requires Inv(s) && node in s.copies && s.copies[node].published
    ensures Inv(Send(s, Report(node, s.copies[node].generation)))
  {
    hide MoveOk, LeaderOk, HistoryOk;
    assert CopyOk(s, node);
    ReportKeeps(s, Send(s, Report(node, s.copies[node].generation)));
  }

  lemma ExecReportKeeps(s: State, owner: nat, generation: nat)
    requires Inv(s) && Report(owner, generation) in s.requests
    ensures Inv(RunReport(s, owner, generation, if generation in s.history then s.history[generation].made else None))
  {
    hide MoveOk, CopyOk, LeaderOk, HistoryOk, RunReport;
    ReportChangesNothing(s, owner, generation);
    ReportKeeps(s, Ran(s, Report(owner, generation), false));
  }

  function Run(s: State, steps: seq<Step>, digest: seq<byte> -> Digest): Option<State> {
    if steps == [] then Some(s)
    else
      var r := Run(s, steps[..|steps| - 1], digest);
      if r.Some? && Enabled(r.value, steps[|steps| - 1]) then Some(Next(r.value, steps[|steps| - 1], digest)) else None
  }

  lemma SameOriginal(s: State, e: Step, digest: seq<byte> -> Digest)
    requires Enabled(s, e)
    ensures Next(s, e, digest).original == s.original
  {
    hide WriteFits, CommitFits, Splice, NewCopy;
  }

  lemma {:induction false} RunKeeps(s: State, steps: seq<Step>, digest: seq<byte> -> Digest)
    requires Inv(s) && Run(s, steps, digest).Some?
    ensures Inv(Run(s, steps, digest).value)
    ensures Run(s, steps, digest).value.original == s.original
  {
    hide Inv, Enabled, Next;
    if steps != [] {
      RunKeeps(s, steps[..|steps| - 1], digest);
      SameOriginal(Run(s, steps[..|steps| - 1], digest).value, steps[|steps| - 1], digest);
      NextKeeps(Run(s, steps[..|steps| - 1], digest).value, steps[|steps| - 1], digest);
    }
  }

  /**
   However calls fail, are lost, or run late, and however many migrations overlap: the owner the
   leader records always has a committed copy of the recorded generation holding the original
   bytes, and all committed copies on all nodes agree.
   */
  lemma CopiesSurvive(owner: nat, original: seq<byte>, steps: seq<Step>, digest: seq<byte> -> Digest)
    requires Run(Initial(owner, original), steps, digest).Some?
    ensures var s := Run(Initial(owner, original), steps, digest).value;
            && s.generation in s.history && s.history[s.generation].owner in s.copies
            && s.copies[s.history[s.generation].owner].ready
            && s.copies[s.history[s.generation].owner].generation == s.generation
            && forall node | node in s.copies && s.copies[node].ready :: s.copies[node].bytes == original
  {
    hide MoveOk, HistoryOk, RequestsOk, Run;
    InitialInv(owner, original);
    RunKeeps(Initial(owner, original), steps, digest);
    var s := Run(Initial(owner, original), steps, digest).value;
    forall node | node in s.copies && s.copies[node].ready ensures s.copies[node].bytes == original {
      assert CopyOk(s, node);
    }
  }

  /**
   A source is dropped only after its compare-and-set was accepted and publication confirmed; at
   that moment the recorded owner is another node, with a committed copy of a newer generation.
   */
  lemma DropIsSafe(owner: nat, original: seq<byte>, steps: seq<Step>, digest: seq<byte> -> Digest, m: nat)
    requires Run(Initial(owner, original), steps, digest).Some?
    requires Enabled(Run(Initial(owner, original), steps, digest).value, DropSource(m))
    ensures var s := Run(Initial(owner, original), steps, digest).value;
            && Accepted(s, m) && PublishAt(m) in s.accepted
            && s.generation in s.history && s.history[s.generation].owner != s.moves[m].src
            && s.history[s.generation].owner in s.copies && s.copies[s.history[s.generation].owner].ready
            && s.copies[s.history[s.generation].owner].bytes == original && s.generation > s.moves[m].generation
  {
    hide HistoryOk, RequestsOk, Run;
    InitialInv(owner, original);
    RunKeeps(Initial(owner, original), steps, digest);
    var s := Run(Initial(owner, original), steps, digest).value;
    assert MoveOk(s, m);
    assert SourceKept(s, m);
    assert CopyOk(s, s.history[s.generation].owner);
  }

  /** A migration whose compare-and-set was accepted never frees its destination. */
  lemma AcceptedIsNeverFreed(owner: nat, original: seq<byte>, steps: seq<Step>, digest: seq<byte> -> Digest, m: nat)
    requires Run(Initial(owner, original), steps, digest).Some?
    requires Accepted(Run(Initial(owner, original), steps, digest).value, m)
    ensures FreeAt(m) !in Run(Initial(owner, original), steps, digest).value.requests
  {
    hide HistoryOk, RequestsOk, CopyOk, LeaderOk, Run;
    InitialInv(owner, original);
    RunKeeps(Initial(owner, original), steps, digest);
    assert MoveOk(Run(Initial(owner, original), steps, digest).value, m);
  }

  // ---- What the leader accepts ----

  /**
   The leader accepts a migration exactly when it still records the generation the migration
   started from. Then it records the next generation with the destination as its owner; otherwise
   what it records stays as it was. Nothing else changes, except that the request has been served.
   */
  lemma RegisterExactly(s: State, m: nat, digest: seq<byte> -> Digest)
    requires Inv(s) && Pending(s, Register(m), m)
    ensures Enabled(s, ExecRegister(m))
    ensures var s', move := Next(s, ExecRegister(m), digest), s.moves[m];
            && (Register(m) in s'.accepted <==> s.generation == move.generation)
            && (s.generation == move.generation ==>
                  s'.generation == move.generation + 1 && s'.history == s.history[move.generation + 1 := Record(move.dst, Some(m))])
            && (s.generation != move.generation ==> s'.generation == s.generation && s'.history == s.history)
            && s'.copies == s.copies && s'.moves == s.moves && s'.original == s.original && s'.requests == s.requests - {Register(m)}
            && s'.accepted - {Register(m)} == s.accepted
  {
    hide LeaderOk, HistoryOk, CopyOk;
    assert MoveOk(s, m);
  }

  // ---- A migration that nothing disturbs ----

  /** The writes of `[offset, size)`, in pieces of at most `chunk` bytes. */
  function Writes(m: nat, offset: nat, size: nat, chunk: nat): seq<Step>
    requires offset <= size && chunk > 0
    decreases size - offset
  {
    if offset == size then []
    else
      var length := if size - offset <= chunk then size - offset else chunk;
      [SendWrite(m, offset, length), ExecWrite(m, offset, length)] + Writes(m, offset + length, size, chunk)
  }

  function Whole(m: nat, src: nat, dst: nat, generation: nat, size: nat, chunk: nat): seq<Step>
    requires chunk > 0
  {
    [Begin(m, src, dst, generation), ExecAllocate(m), StartCopy(m)] + Writes(m, 0, size, chunk)
    + [SendCommit(m), ExecCommit(m), SendRegister(m), ExecRegister(m), SendPublish(m), ExecPublish(m), ConfirmPublish(m), DropSource(m)]
  }

  lemma {:induction false} RunBoth(s: State, a: seq<Step>, t: State, b: seq<Step>, digest: seq<byte> -> Digest)
    requires Run(s, a, digest) == Some(t)
    ensures Run(s, a + b, digest) == Run(t, b, digest)
    decreases |b|
  {
    hide Enabled, Next;
    if b == [] {
      assert a + b == a;
    } else {
      assert (a + b)[..|a + b| - 1] == a + b[..|b| - 1];
      RunBoth(s, a, t, b[..|b| - 1], digest);
    }
  }

  lemma RunOne(s: State, e: Step, digest: seq<byte> -> Digest)
    requires Enabled(s, e)
    ensures Run(s, [e], digest) == Some(Next(s, e, digest))
  {
    hide Enabled, Next;
    assert [e][..0] == [];
  }

  /** One more step. */
  lemma AndThen(s: State, steps: seq<Step>, t: State, e: Step, digest: seq<byte> -> Digest)
    requires Run(s, steps, digest) == Some(t) && Enabled(t, e)
    ensures Run(s, steps + [e], digest) == Some(Next(t, e, digest))
  {
    hide Enabled, Next, Run;
    RunOne(t, e, digest);
    RunBoth(s, steps, t, [e], digest);
  }

  /** How far migration `m` from `s0` has come: its phase, its copy, and whether the leader has recorded it. */
  ghost predicate At(s0: State, s: State, m: nat, dst: nat, phase: Phase, c: Option<Copy>, recorded: bool)
    requires s0.generation in s0.history
  {
    && s.original == s0.original
    && s.moves == s0.moves[m := Move(s0.history[s0.generation].owner, dst, s0.generation, phase)]
    && s.copies == (if c.Some? then s0.copies[dst := c.value] else s0.copies)
    && s.generation == (if recorded then s0.generation + 1 else s0.generation)
    && s.history == if recorded then s0.history[s0.generation + 1 := Record(dst, Some(m))] else s0.history
  }

  function Partly(s0: State, m: nat, bytes: seq<byte>, written: nat): Copy {
    Copy(s0.generation + 1, false, bytes, written, false, Some(m))
  }

  ghost predicate CanStart(s0: State, m: nat, dst: nat) {
    Inv(s0) && m !in s0.moves && dst !in s0.copies
  }

  lemma Recorded(s0: State)
    requires Inv(s0)
    ensures s0.generation in s0.history && s0.history[s0.generation].owner in s0.copies
    ensures var c := s0.copies[s0.history[s0.generation].owner]; c.ready && c.generation == s0.generation && c.bytes == s0.original
  {
    hide MoveOk, HistoryOk, RequestsOk;
    assert CopyOk(s0, s0.history[s0.generation].owner);
  }

  lemma Opening(s0: State, m: nat, dst: nat, digest: seq<byte> -> Digest) returns (s: State)
    requires CanStart(s0, m, dst)
    ensures s0.generation in s0.history
    ensures Run(s0, [Begin(m, s0.history[s0.generation].owner, dst, s0.generation), ExecAllocate(m), StartCopy(m)], digest) == Some(s)
    ensures At(s0, s, m, dst, Copying, Some(Partly(s0, m, seq(|s0.original|, _ => 0), 0)), false)
  {
    hide Run, Inv;
    Recorded(s0);
    var src := s0.history[s0.generation].owner;
    var e1, e2, e3 := Begin(m, src, dst, s0.generation), ExecAllocate(m), StartCopy(m);
    RunOne(s0, e1, digest);
    var s1 := Next(s0, e1, digest);
    AndThen(s0, [e1], s1, e2, digest);
    var s2 := Next(s1, e2, digest);
    assert [e1] + [e2] == [e1, e2] && [e1, e2] + [e3] == [e1, e2, e3];
    AndThen(s0, [e1, e2], s2, e3, digest);
    s := Next(s2, e3, digest);
  }

  /** Writing piece by piece copies the whole. */
  lemma {:induction false} Copied(s0: State, s: State, m: nat, dst: nat, bytes: seq<byte>, offset: nat, chunk: nat, digest: seq<byte> -> Digest)
    returns (t: State)
    requires CanStart(s0, m, dst) && s0.generation in s0.history && chunk > 0
    requires |bytes| == |s0.original| && offset <= |bytes| && bytes[..offset] == s0.original[..offset]
    requires At(s0, s, m, dst, Copying, Some(Partly(s0, m, bytes, offset)), false)
    ensures Run(s, Writes(m, offset, |s0.original|, chunk), digest) == Some(t)
    ensures At(s0, t, m, dst, Copying, Some(Partly(s0, m, s0.original, |s0.original|)), false)
    decreases |bytes| - offset
  {
    hide Inv, Run;
    if offset == |bytes| {
      t := s;
      assert bytes == s0.original;
      RunNone(s, digest);
    } else {
      var length := if |bytes| - offset <= chunk then |bytes| - offset else chunk;
      var s1, bytes1 := OneWrite(s0, s, m, dst, bytes, offset, length, digest);
      t := Copied(s0, s1, m, dst, bytes1, offset + length, chunk, digest);
      RunBoth(s, [SendWrite(m, offset, length), ExecWrite(m, offset, length)], s1, Writes(m, offset + length, |bytes|, chunk), digest);
    }
  }

  lemma RunNone(s: State, digest: seq<byte> -> Digest)
    ensures Run(s, [], digest) == Some(s)
  {
  }

  lemma OneWrite(s0: State, s: State, m: nat, dst: nat, bytes: seq<byte>, offset: nat, length: nat, digest: seq<byte> -> Digest)
    returns (t: State, bytes': seq<byte>)
    requires s0.generation in s0.history
    requires |bytes| == |s0.original| && offset + length <= |bytes| && bytes[..offset] == s0.original[..offset]
    requires At(s0, s, m, dst, Copying, Some(Partly(s0, m, bytes, offset)), false)
    ensures Run(s, [SendWrite(m, offset, length), ExecWrite(m, offset, length)], digest) == Some(t)
    ensures |bytes'| == |bytes| && bytes'[..offset + length] == s0.original[..offset + length]
    ensures At(s0, t, m, dst, Copying, Some(Partly(s0, m, bytes', offset + length)), false)
  {
    hide Run;
    t := RunTwo(s, SendWrite(m, offset, length), ExecWrite(m, offset, length), digest);
    bytes' := Splice(bytes, offset, s0.original[offset..offset + length]);
    assert s0.original[..offset + length] == s0.original[..offset] + s0.original[offset..offset + length];
  }

  /** Two steps. */
  lemma RunTwo(s: State, e: Step, f: Step, digest: seq<byte> -> Digest) returns (t: State)
    requires Enabled(s, e) && Enabled(Next(s, e, digest), f)
    ensures Run(s, [e, f], digest) == Some(t) && t == Next(Next(s, e, digest), f, digest)
  {
    hide Enabled, Next, Run;
    RunOne(s, e, digest);
    t := Next(Next(s, e, digest), f, digest);
    AndThen(s, [e], Next(s, e, digest), f, digest);
    assert [e] + [f] == [e, f];
  }

  lemma Committing(s0: State, s: State, m: nat, dst: nat, digest: seq<byte> -> Digest) returns (t: State)
    requires s0.generation in s0.history
    requires At(s0, s, m, dst, Copying, Some(Partly(s0, m, s0.original, |s0.original|)), false)
    ensures Run(s, [SendCommit(m), ExecCommit(m)], digest) == Some(t)
    ensures At(s0, t, m, dst, Copying, Some(Partly(s0, m, s0.original, |s0.original|).(ready := true)), false) && CommitAt(m) in t.accepted
  {
    hide Run;
    t := RunTwo(s, SendCommit(m), ExecCommit(m), digest);
  }

  lemma Registered(s0: State, s: State, m: nat, dst: nat, digest: seq<byte> -> Digest) returns (t: State)
    requires s0.generation in s0.history && CommitAt(m) in s.accepted
    requires At(s0, s, m, dst, Copying, Some(Partly(s0, m, s0.original, |s0.original|).(ready := true)), false)
    ensures Run(s, [SendRegister(m), ExecRegister(m)], digest) == Some(t)
    ensures At(s0, t, m, dst, Registering, Some(Partly(s0, m, s0.original, |s0.original|).(ready := true)), true) && Register(m) in t.accepted
  {
    hide Run;
    t := RunTwo(s, SendRegister(m), ExecRegister(m), digest);
  }

  lemma Published(s0: State, s: State, m: nat, dst: nat, digest: seq<byte> -> Digest) returns (t: State)
    requires s0.generation in s0.history && Register(m) in s.accepted
    requires At(s0, s, m, dst, Registering, Some(Partly(s0, m, s0.original, |s0.original|).(ready := true)), true)
    ensures Run(s, [SendPublish(m), ExecPublish(m)], digest) == Some(t) && PublishAt(m) in t.accepted
    ensures At(s0, t, m, dst, Publishing, Some(Partly(s0, m, s0.original, |s0.original|).(ready := true, published := true)), true)
  {
    hide Run;
    t := RunTwo(s, SendPublish(m), ExecPublish(m), digest);
  }

  lemma Closing(s0: State, s: State, m: nat, dst: nat, digest: seq<byte> -> Digest) returns (t: State)
    requires s0.generation in s0.history && PublishAt(m) in s.accepted
    requires At(s0, s, m, dst, Publishing, Some(Partly(s0, m, s0.original, |s0.original|).(ready := true, published := true)), true)
    ensures Run(s, [ConfirmPublish(m), DropSource(m)], digest) == Some(t)
    ensures t.copies == s0.copies[dst := Copy(s0.generation + 1, true, s0.original, |s0.original|, true, Some(m))] - {s0.history[s0.generation].owner}
    ensures t.moves == s0.moves[m := Move(s0.history[s0.generation].owner, dst, s0.generation, Finished)]
    ensures t.generation == s0.generation + 1 && t.history == s0.history[s0.generation + 1 := Record(dst, Some(m))]
  {
    hide Run;
    t := RunTwo(s, ConfirmPublish(m), DropSource(m), digest);
  }

  /** A migration that fails while it copies is undone: its copy is freed, and the leader's record and all other copies are as they were. */
  lemma FailedIsUndone(s0: State, s: State, m: nat, dst: nat, c: Copy, digest: seq<byte> -> Digest) returns (t: State)
    requires CanStart(s0, m, dst) && s0.generation in s0.history && At(s0, s, m, dst, Copying, Some(c), false)
    ensures Run(s, [FailCopy(m), ExecFree(m)], digest) == Some(t)
    ensures t.copies == s0.copies && t.generation == s0.generation && t.history == s0.history
    ensures m in t.moves && t.moves[m].phase == Failed && t.moves - {m} == s0.moves
  {
    hide Run, Inv;
    t := RunTwo(s, FailCopy(m), ExecFree(m), digest);
  }

  /**
   Whatever has happened before, a new migration of the recorded copy to a node without one, in
   pieces of any size, goes through if nothing disturbs it: it finishes, the leader records the
   destination, which holds the original committed and published, and the source copy is gone. No
   other copy is touched.
   */
  lemma UndisturbedMigrates(s0: State, m: nat, dst: nat, chunk: nat, digest: seq<byte> -> Digest) returns (t: State)
    requires Inv(s0) && m !in s0.moves && dst !in s0.copies && chunk > 0
    ensures s0.generation in s0.history
    ensures Run(s0, Whole(m, s0.history[s0.generation].owner, dst, s0.generation, |s0.original|, chunk), digest) == Some(t)
    ensures m in t.moves && t.moves[m].phase == Finished
    ensures t.generation == s0.generation + 1 && t.generation in t.history && t.history[t.generation].owner == dst
    ensures dst in t.copies && t.copies[dst] == Copy(s0.generation + 1, true, s0.original, |s0.original|, true, Some(m))
    ensures s0.history[s0.generation].owner !in t.copies
    ensures forall node | node != dst && node != s0.history[s0.generation].owner ::
              (node in t.copies <==> node in s0.copies) && (node in t.copies ==> t.copies[node] == s0.copies[node])
  {
    hide Inv, Run, Next, Enabled, At;
    Recorded(s0);
    var src := s0.history[s0.generation].owner;
    var s1 := Opening(s0, m, dst, digest);
    var s2 := Copied(s0, s1, m, dst, seq(|s0.original|, _ => 0), 0, chunk, digest);
    var s3 := Committing(s0, s2, m, dst, digest);
    var s4 := Registered(s0, s3, m, dst, digest);
    var s5 := Published(s0, s4, m, dst, digest);
    t := Closing(s0, s5, m, dst, digest);
    var a, b := [Begin(m, src, dst, s0.generation), ExecAllocate(m), StartCopy(m)], Writes(m, 0, |s0.original|, chunk);
    var c, d := [SendCommit(m), ExecCommit(m)], [SendRegister(m), ExecRegister(m)];
    var e, f := [SendPublish(m), ExecPublish(m)], [ConfirmPublish(m), DropSource(m)];
    RunBoth(s0, a, s1, b, digest);
    RunBoth(s0, a + b, s2, c, digest);
    RunBoth(s0, a + b + c, s3, d, digest);
    RunBoth(s0, a + b + c + d, s4, e, digest);
    RunBoth(s0, a + b + c + d + e, s5, f, digest);
    assert a + b + c + d + e + f == Whole(m, src, dst, s0.generation, |s0.original|, chunk);
  }

  /** In particular the first one does. */
  lemma FirstMigrates(owner: nat, dst: nat, original: seq<byte>, chunk: nat, digest: seq<byte> -> Digest) returns (t: State)
    requires dst != owner && chunk > 0
    ensures Run(Initial(owner, original), Whole(0, owner, dst, 0, |original|, chunk), digest) == Some(t)
    ensures 0 in t.moves && t.moves[0].phase == Finished && t.generation == 1 && 1 in t.history && t.history[1].owner == dst
    ensures t.copies == map[dst := Copy(1, true, original, |original|, true, Some(0))]
  {
    hide Run, Next, Enabled, Whole;
    InitialInv(owner, original);
    hide Inv;
    t := UndisturbedMigrates(Initial(owner, original), 0, dst, chunk, digest);
  }
}
