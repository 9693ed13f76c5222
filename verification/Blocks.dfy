/**
 One RAM block: three write paths feed an append-only buffer with a running hash, and
 Commit freezes it.
 */
module Blocks {
  import opened Graph

  type byte = x: int | 0 <= x < 256
  type Digest = nat

  /** `absorbed` is everything fed to the running hash; `checksum` is set once the block is ready. */
  datatype Block = Block(
    job: nat, lease: nat, generation: nat, ready: bool, bytes: seq<byte>, written: nat,
    absorbed: seq<byte>, transfer: Option<nat>, checksum: Option<Digest>)

  /** What a request says about the block it is meant for. */
  datatype Target = Target(job: nat, lease: nat, generation: nat, totalSize: nat)

  function Splice(bytes: seq<byte>, at: nat, data: seq<byte>): (r: seq<byte>)
    requires at + |data| <= |bytes|
    ensures |r| == |bytes|
  {
    bytes[..at] + data + bytes[at + |data|..]
  }

  function Append(b: Block, transfer: nat, offset: nat, data: seq<byte>): Block
    requires offset + |data| <= |b.bytes|
  {
    b.(bytes := Splice(b.bytes, offset, data), absorbed := b.absorbed + data, transfer := Some(transfer),
       written := offset + |data|)
  }

  /** `live` is the clock's verdict on the lease. */
  predicate Authorized(b: Block, lease: nat, live: bool) {
    lease == b.lease && live
  }

  datatype Step =
    | Local(target: Target, transfer: nat, offset: nat, data: seq<byte>, intact: bool, live: bool)
    | Direct(target: Target, transfer: nat, offset: nat, length: nat, arrived: seq<byte>, intact: bool, live: bool)
    | Finish(target: Target, transfer: nat, offset: nat, data: seq<byte>, live: bool)
    | Commit(lease: nat, expected: Digest, live: bool)

  predicate LocalAllowed(b: Block, s: Step)
    requires s.Local?
  {
    && s.intact && |s.data| > 0 && s.offset + |s.data| <= s.target.totalSize
    && Authorized(b, s.target.lease, s.live)
    && !b.ready && b.generation == s.target.generation && b.written == s.offset
    && s.offset + |s.data| <= |b.bytes|
  }

  /** What the direct path checks before it lets the stream write into the buffer. */
  predicate DirectAdmitted(b: Block, s: Step)
    requires s.Direct?
  {
    && s.length > 0 && s.offset + s.length <= s.target.totalSize
    && Authorized(b, s.target.lease, s.live)
    && !b.ready && b.generation == s.target.generation
    && b.written == s.offset && |b.bytes| == s.target.totalSize
    && (b.transfer.None? || b.transfer == Some(s.transfer))
  }

  predicate FinishAllowed(b: Block, s: Step)
    requires s.Finish?
  {
    && Authorized(b, s.target.lease, s.live)
    && b.generation == s.target.generation && !b.ready && b.written == s.offset
    && s.offset + |s.data| <= |b.bytes|
  }

  predicate CommitAllowed(b: Block, s: Step, digest: seq<byte> -> Digest)
    requires s.Commit?
  {
    Authorized(b, s.lease, s.live) && b.written == |b.bytes| && digest(b.absorbed) == s.expected
  }

  /** A direct write whose stream fails, or whose checksum is wrong, leaves what arrived past the end. */
  function DirectWrite(b: Block, s: Step): Block
    requires s.Direct? && DirectAdmitted(b, s)
  {
    var got := if |s.arrived| <= s.length then s.arrived else s.arrived[..s.length];
    if |got| == s.length && s.intact then Append(b, s.transfer, s.offset, got)
    else b.(bytes := Splice(b.bytes, s.offset, got))
  }

  function Apply(b: Block, s: Step, digest: seq<byte> -> Digest): Block {
    match s
    case Local(_, _, _, _, _, _) => if LocalAllowed(b, s) then Append(b, s.transfer, s.offset, s.data) else b
    case Direct(_, _, _, _, _, _, _) => if DirectAdmitted(b, s) then DirectWrite(b, s) else b
    case Finish(_, _, _, _, _) => if FinishAllowed(b, s) then Append(b, s.transfer, s.offset, s.data) else b
    case Commit(_, _, _) =>
      if CommitAllowed(b, s, digest) then b.(ready := true, checksum := Some(s.expected)) else b
  }

  function Run(b: Block, steps: seq<Step>, digest: seq<byte> -> Digest): Block {
    if steps == [] then b else Apply(Run(b, steps[..|steps| - 1], digest), steps[|steps| - 1], digest)
  }

  /** A freshly allocated block. */
  function Fresh(job: nat, lease: nat, generation: nat, size: nat): Block {
    Block(job, lease, generation, false, seq(size, _ => 0), 0, [], None, None)
  }

  /** The running hash is that of the written prefix; ready means fully written and matching. */
  predicate Sound(b: Block, digest: seq<byte> -> Digest) {
    && b.written <= |b.bytes| && b.absorbed == b.bytes[..b.written]
    && (b.ready ==> b.written == |b.bytes| && b.checksum == Some(digest(b.bytes)))
  }

  /** `later` keeps everything `b` had written; once ready, all of it is frozen. */
  predicate Extends(b: Block, later: Block) {
    && |later.bytes| == |b.bytes| && b.written <= later.written <= |later.bytes|
    && later.bytes[..b.written] == b.bytes[..b.written]
    && (b.ready ==> later.ready && later.bytes == b.bytes && later.written == b.written && later.checksum == b.checksum)
  }

  lemma SplicePrefix(bytes: seq<byte>, at: nat, data: seq<byte>, n: nat)
    requires at + |data| <= |bytes| && n <= at
    ensures Splice(bytes, at, data)[..n] == bytes[..n]
    ensures Splice(bytes, at, data)[..at + |data|] == bytes[..at] + data
  {
  }

  /** Every path, successful or not, keeps the block sound and only appends. */
  lemma ApplyExtends(b: Block, s: Step, digest: seq<byte> -> Digest)
    requires Sound(b, digest)
    ensures Sound(Apply(b, s, digest), digest) && Extends(b, Apply(b, s, digest))
  {
    hide Splice;
    match s
    case Local(_, _, _, _, _, _) =>
      if LocalAllowed(b, s) { SplicePrefix(b.bytes, s.offset, s.data, b.written); }
    case Direct(_, _, _, _, _, _, _) =>
      if DirectAdmitted(b, s) {
        var got := if |s.arrived| <= s.length then s.arrived else s.arrived[..s.length];
        SplicePrefix(b.bytes, s.offset, got, b.written);
      }
    case Finish(_, _, _, _, _) =>
      if FinishAllowed(b, s) { SplicePrefix(b.bytes, s.offset, s.data, b.written); }
    case Commit(_, _, _) =>
      assert b.bytes[..|b.bytes|] == b.bytes;
  }

  /** Over any interleaving of writes and commits: sound, append-only, and frozen once ready. */
  lemma {:induction false} RunExtends(b: Block, steps: seq<Step>, digest: seq<byte> -> Digest, n: nat)
    requires Sound(b, digest) && n <= |steps|
    ensures Sound(Run(b, steps, digest), digest)
    ensures Extends(Run(b, steps[..n], digest), Run(b, steps, digest))
  {
    hide Apply, Sound;
    if n == |steps| {
      assert steps[..n] == steps;
      RunSound(b, steps, digest);
      assert Extends(Run(b, steps, digest), Run(b, steps, digest)) by { SoundExtends(Run(b, steps, digest), digest); }
    } else {
      var m := |steps| - 1;
      RunExtends(b, steps[..m], digest, n);
      assert steps[..m][..n] == steps[..n];
      ApplyExtends(Run(b, steps[..m], digest), steps[m], digest);
    }
  }

  lemma {:induction false} RunSound(b: Block, steps: seq<Step>, digest: seq<byte> -> Digest)
    requires Sound(b, digest)
    ensures Sound(Run(b, steps, digest), digest)
  {
    hide Apply, Sound;
    if steps != [] {
      RunSound(b, steps[..|steps| - 1], digest);
      ApplyExtends(Run(b, steps[..|steps| - 1], digest), steps[|steps| - 1], digest);
    }
  }

  lemma SoundExtends(b: Block, digest: seq<byte> -> Digest)
    requires Sound(b, digest)
    ensures Extends(b, b)
  {
  }

  /** The payloads that were appended, in order. */
  function Appended(b: Block, steps: seq<Step>, digest: seq<byte> -> Digest): seq<seq<byte>> {
    if steps == [] then []
    else
      var last, before := steps[|steps| - 1], Run(b, steps[..|steps| - 1], digest);
      var rest := Appended(b, steps[..|steps| - 1], digest);
      if last.Local? && LocalAllowed(before, last) then rest + [last.data]
      else if last.Finish? && FinishAllowed(before, last) then rest + [last.data]
      else if last.Direct? && DirectAdmitted(before, last) && |last.arrived| >= last.length && last.intact then
        rest + [last.arrived[..last.length]]
      else rest
  }

  function Concat(parts: seq<seq<byte>>): seq<byte> {
    if parts == [] then [] else Concat(parts[..|parts| - 1]) + parts[|parts| - 1]
  }

  /** What a block holds is exactly the concatenation of the accepted payloads. */
  lemma {:induction false} ContentIsAppended(b: Block, steps: seq<Step>, digest: seq<byte> -> Digest)
    requires Sound(b, digest) && b.written == 0
    ensures var r := Run(b, steps, digest);
            r.written <= |r.bytes| && r.bytes[..r.written] == Concat(Appended(b, steps, digest))
  {
    hide Splice, Sound;
    RunSound(b, steps, digest);
    assert Run(b, steps, digest).written <= |Run(b, steps, digest).bytes| by { Within(Run(b, steps, digest), digest); }
    if steps != [] {
      var n := |steps| - 1;
      var before, s := Run(b, steps[..n], digest), steps[n];
      RunSound(b, steps[..n], digest);
      ContentIsAppended(b, steps[..n], digest);
      AppliedPrefix(before, s, digest);
      var rest := Appended(b, steps[..n], digest);
      var all := Appended(b, steps, digest);
      if all != rest { assert all[..|all| - 1] == rest; }
    } else {
      assert Concat([]) == [];
    }
  }

  lemma Within(b: Block, digest: seq<byte> -> Digest)
    requires Sound(b, digest)
    ensures b.written <= |b.bytes|
  {
  }

  lemma AppliedPrefix(b: Block, s: Step, digest: seq<byte> -> Digest)
    requires Sound(b, digest)
    ensures var r := Apply(b, s, digest);
            var data := if s.Local? && LocalAllowed(b, s) then s.data
                        else if s.Finish? && FinishAllowed(b, s) then s.data
                        else if s.Direct? && DirectAdmitted(b, s) && |s.arrived| >= s.length && s.intact then s.arrived[..s.length]
                        else [];
            r.written <= |r.bytes| && b.written <= |b.bytes| && r.bytes[..r.written] == b.bytes[..b.written] + data
  {
    hide Splice;
    match s
    case Local(_, _, _, _, _, _) =>
      if LocalAllowed(b, s) { SplicePrefix(b.bytes, s.offset, s.data, b.written); }
    case Direct(_, _, _, _, _, _, _) =>
      if DirectAdmitted(b, s) {
        var got := if |s.arrived| <= s.length then s.arrived else s.arrived[..s.length];
        assert |s.arrived| == s.length ==> s.arrived[..s.length] == s.arrived;
        SplicePrefix(b.bytes, s.offset, got, b.written);
      }
    case Finish(_, _, _, _, _) =>
      if FinishAllowed(b, s) { SplicePrefix(b.bytes, s.offset, s.data, b.written); }
    case Commit(_, _, _) =>
  }

  lemma SpliceNext(bytes: seq<byte>, at: nat, data: seq<byte>, k: nat)
    requires at + |data| <= |bytes| && k < |data|
    ensures Splice(bytes, at, data[..k])[at + k := data[k]] == Splice(bytes, at, data[..k + 1])
  {
  }

  // ---- The block in memory ----

  /** The checks of the direct path: the caller, the block's state, and that no other transfer has begun to write. */
  predicate Admits(b: Block, target: Target, id: nat, offset: nat, length: nat, live: bool) {
    && live && target.lease == b.lease && target.generation == b.generation && !b.ready && target.totalSize == |b.bytes|
    && length > 0 && offset == b.written && offset + length <= |b.bytes| && (b.transfer.None? || b.transfer == Some(id))
  }

  /** `data` has been written at the end of what was, fed to the hash, and nothing else has changed. */
  predicate Grown(b: Block, after: Block, transfer: nat, data: seq<byte>) {
    && b.written + |data| <= |b.bytes| == |after.bytes|
    && after.bytes[b.written..b.written + |data|] == data && after.bytes[..b.written] == b.bytes[..b.written]
    && after.bytes[b.written + |data|..] == b.bytes[b.written + |data|..]
    && after == b.(bytes := after.bytes, absorbed := b.absorbed + data, transfer := Some(transfer), written := b.written + |data|)
  }

  class RamBlock {
    const job: nat
    const lease: nat
    const generation: nat
    const digest: seq<byte> -> Digest
    const bytes: array<byte>
    var written: nat
    var hashed: seq<byte>
    var transfer: Option<nat>
    var ready: bool
    var checksum: Option<Digest>

    ghost function Abs(): Block
      reads this, bytes
    {
      Block(job, lease, generation, ready, bytes[..], written, hashed, transfer, checksum)
    }

    constructor (job: nat, lease: nat, generation: nat, size: nat, digest: seq<byte> -> Digest)
      ensures Abs() == Fresh(job, lease, generation, size) && this.digest == digest && fresh(bytes)
    {
      this.job, this.lease, this.generation, this.digest := job, lease, generation, digest;
      var buffer := new byte[size](_ => 0);
      bytes := buffer;
      written, hashed, transfer, ready, checksum := 0, [], None, false, None;
      new;
      assert bytes[..] == seq(size, _ => 0);
    }

    method Copy(at: nat, data: seq<byte>)
      requires at + |data| <= bytes.Length
      modifies bytes
      ensures bytes[..] == Splice(old(bytes[..]), at, data)
    {
      for k := 0 to |data|
        invariant bytes[..] == Splice(old(bytes[..]), at, data[..k])
      {
        hide Splice;
        SpliceNext(old(bytes[..]), at, data, k);
        bytes[at + k] := data[k];
      }
      assert data[..|data|] == data;
    }

    /** The payload of a local client, already read and checked. */
    method WriteLocal(target: Target, id: nat, offset: nat, data: seq<byte>, intact: bool, live: bool) returns (ok: bool)
      modifies this`written, this`hashed, this`transfer, bytes
      ensures ok == LocalAllowed(old(Abs()), Local(target, id, offset, data, intact, live))
      ensures Abs() == Apply(old(Abs()), Local(target, id, offset, data, intact, live), digest)
      ensures ok <==> intact && live && target.lease == lease && target.generation == generation && !old(ready)
                      && |data| > 0 && offset == old(written) && offset + |data| <= target.totalSize && offset + |data| <= bytes.Length
      ensures if ok then Grown(old(Abs()), Abs(), id, data) else Abs() == old(Abs())
    {
      ok := intact && |data| > 0 && offset + |data| <= target.totalSize && target.lease == lease && live
            && !ready && generation == target.generation && written == offset && offset + |data| <= bytes.Length;
      if ok {
        Copy(offset, data);
        hashed, transfer, written := hashed + data, Some(id), offset + |data|;
      }
    }

    /** A peer's stream is read straight into the buffer; it may break off or fail its checksum. */
    method WriteDirect(target: Target, id: nat, offset: nat, length: nat, arrived: seq<byte>, intact: bool, live: bool)
      returns (ok: bool)
      modifies this`written, this`hashed, this`transfer, bytes
      ensures Abs() == Apply(old(Abs()), Direct(target, id, offset, length, arrived, intact, live), digest)
      ensures ok == (DirectAdmitted(old(Abs()), Direct(target, id, offset, length, arrived, intact, live))
                     && |arrived| >= length && intact)
      ensures ok <==> intact && |arrived| >= length && Admits(old(Abs()), target, id, offset, length, live)
      ensures ok ==> Grown(old(Abs()), Abs(), id, arrived[..length])
      ensures !ok && !Admits(old(Abs()), target, id, offset, length, live) ==> Abs() == old(Abs())
      ensures !ok ==> Abs() == old(Abs()).(bytes := bytes[..]) && (written <= bytes.Length ==> bytes[..written] == old(bytes[..written]))
    {
      ok := length > 0 && offset + length <= target.totalSize && target.lease == lease && live
            && !ready && generation == target.generation && written == offset && bytes.Length == target.totalSize
            && (transfer.None? || transfer == Some(id));
      if ok {
        var got := if |arrived| <= length then arrived else arrived[..length];
        Copy(offset, got);
        ok := |got| == length && intact;
        if ok {
          hashed, transfer, written := hashed + got, Some(id), offset + length;
        }
      }
    }

    /** A complete UDP session is moved into the block. */
    method FinishUdp(target: Target, id: nat, offset: nat, data: seq<byte>, live: bool) returns (ok: bool)
      modifies this`written, this`hashed, this`transfer, bytes
      ensures ok == FinishAllowed(old(Abs()), Finish(target, id, offset, data, live))
      ensures Abs() == Apply(old(Abs()), Finish(target, id, offset, data, live), digest)
      ensures ok <==> live && target.lease == lease && target.generation == generation && !old(ready)
                      && offset == old(written) && offset + |data| <= bytes.Length
      ensures if ok then Grown(old(Abs()), Abs(), id, data) else Abs() == old(Abs())
    {
      ok := target.lease == lease && live && generation == target.generation && !ready && written == offset
            && offset + |data| <= bytes.Length;
      if ok {
        Copy(offset, data);
        hashed, transfer, written := hashed + data, Some(id), offset + |data|;
      }
    }

    method CommitBlock(token: nat, expected: Digest, live: bool) returns (ok: bool)
      modifies this`ready, this`checksum
      ensures ok == CommitAllowed(old(Abs()), Commit(token, expected, live), digest)
      ensures Abs() == Apply(old(Abs()), Commit(token, expected, live), digest)
      ensures ok <==> live && token == lease && old(written) == bytes.Length && digest(old(hashed)) == expected
      ensures Abs() == if ok then old(Abs()).(ready := true, checksum := Some(expected)) else old(Abs())
    {
      ok := token == lease && live && written == bytes.Length && digest(hashed) == expected;
      if ok {
        ready, checksum := true, Some(expected);
      }
    }
  }
}
