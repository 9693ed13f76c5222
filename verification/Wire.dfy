/**
 The UDP datagram format: a 166-byte header, then the payload. Hash and authentication tag
 are arbitrary functions with 32-byte results.
 */
module Wire {
  import opened Graph
  import opened Blocks

  const HEADER_LEN: nat := 166
  const MAX_DATAGRAM: nat := 1400
  const MAGIC: seq<byte> := [0x54, 0x50, 0x55, 0x31]
  const VERSION: byte := 1

  type U16 = x: int | 0 <= x < 0x1_0000
  type U32 = x: int | 0 <= x < 0x1_0000_0000
  type U64 = x: int | 0 <= x < 0x1_0000_0000_0000_0000
  type Uuid = s: seq<byte> | |s| == 16 witness seq(16, _ => 0)
  type Bytes32 = s: seq<byte> | |s| == 32 witness seq(32, _ => 0)

  datatype Kind = StartKind | StartAckKind | DataKind | AckKind | NackKind | FinKind | CompleteKind | AbortKind | ReadRequestKind | ErrorKind

  datatype Packet = Packet(
    kind: Kind, flags: U16, transfer: Uuid, object_: Uuid, block: Uuid, lease: Uuid, generation: U64, sequence: U32,
    offset: U64, totalSize: U64, payload: seq<byte>)

  /** The payload hash, and the tag for one cluster secret (all zeros without a secret). */
  datatype Crypto = Crypto(hash: seq<byte> -> Bytes32, tag: (seq<byte>, seq<byte>) -> Bytes32)

  function KindByte(k: Kind): byte {
    match k
    case StartKind => 1
    case StartAckKind => 2
    case DataKind => 3
    case AckKind => 4
    case NackKind => 5
    case FinKind => 6
    case CompleteKind => 7
    case AbortKind => 8
    case ReadRequestKind => 9
    case ErrorKind => 10
  }

  function KindOf(b: byte): (r: Option<Kind>)
    ensures forall k :: KindByte(k) == b <==> r == Some(k)
  {
    if b == 1 then Some(StartKind) else if b == 2 then Some(StartAckKind) else if b == 3 then Some(DataKind)
    else if b == 4 then Some(AckKind) else if b == 5 then Some(NackKind) else if b == 6 then Some(FinKind)
    else if b == 7 then Some(CompleteKind) else if b == 8 then Some(AbortKind) else if b == 9 then Some(ReadRequestKind)
    else if b == 10 then Some(ErrorKind) else None
  }

  // ---- Big-endian integers ----

  function Pow256(k: nat): nat {
    if k == 0 then 1 else 256 * Pow256(k - 1)
  }

  function ToBytes(n: nat, k: nat): (r: seq<byte>)
    ensures |r| == k
  {
    if k == 0 then [] else ToBytes(n / 256, k - 1) + [n % 256]
  }

  function FromBytes(s: seq<byte>): nat {
    if s == [] then 0 else FromBytes(s[..|s| - 1]) * 256 + s[|s| - 1]
  }

  lemma {:induction false} FromTo(n: nat, k: nat)
    requires n < Pow256(k)
    ensures FromBytes(ToBytes(n, k)) == n
  {
    if k > 0 {
      FromTo(n / 256, k - 1);
      var r := ToBytes(n, k);
      assert r[..k - 1] == ToBytes(n / 256, k - 1);
    }
  }

  lemma {:induction false} ToFrom(s: seq<byte>)
    ensures ToBytes(FromBytes(s), |s|) == s
    ensures FromBytes(s) < Pow256(|s|)
  {
    if s != [] {
      var front, last := s[..|s| - 1], s[|s| - 1];
      ToFrom(front);
      assert s == front + [last];
      assert FromBytes(s) / 256 == FromBytes(front) && FromBytes(s) % 256 == last;
    }
  }

  lemma Widths()
    ensures Pow256(2) == 0x1_0000 && Pow256(4) == 0x1_0000_0000 && Pow256(8) == 0x1_0000_0000_0000_0000
  {
    assert Pow256(1) == 256 && Pow256(3) == 256 * Pow256(2);
    assert Pow256(5) == 256 * Pow256(4) && Pow256(6) == 256 * Pow256(5) && Pow256(7) == 256 * Pow256(6);
  }

  // ---- Fixed-width fields ----

  function Sum(widths: seq<nat>): nat {
    if widths == [] then 0 else widths[0] + Sum(widths[1..])
  }

  function Join(fields: seq<seq<byte>>): seq<byte> {
    if fields == [] then [] else fields[0] + Join(fields[1..])
  }

  function Cut(widths: seq<nat>, s: seq<byte>): (r: seq<seq<byte>>)
    requires |s| == Sum(widths)
    ensures |r| == |widths| && forall i | 0 <= i < |r| :: |r[i]| == widths[i]
  {
    if widths == [] then [] else [s[..widths[0]]] + Cut(widths[1..], s[widths[0]..])
  }

  lemma {:induction false} CutJoin(widths: seq<nat>, fields: seq<seq<byte>>)
    requires |fields| == |widths| && forall i | 0 <= i < |fields| :: |fields[i]| == widths[i]
    ensures |Join(fields)| == Sum(widths) && Cut(widths, Join(fields)) == fields
  {
    if widths != [] {
      CutJoin(widths[1..], fields[1..]);
      var s := Join(fields);
      assert s[..widths[0]] == fields[0] && s[widths[0]..] == Join(fields[1..]);
      assert fields == [fields[0]] + fields[1..];
    }
  }

  lemma {:induction false} JoinCut(widths: seq<nat>, s: seq<byte>)
    requires |s| == Sum(widths)
    ensures Join(Cut(widths, s)) == s
  {
    if widths != [] {
      var r := Cut(widths, s);
      assert r[1..] == Cut(widths[1..], s[widths[0]..]);
      JoinCut(widths[1..], s[widths[0]..]);
      assert s == s[..widths[0]] + s[widths[0]..];
    }
  }

  /** Magic, version, kind, flags, four ids, generation, sequence, offset, total size, payload length, payload hash. */
  function FieldWidths(): seq<nat> {
    [4, 1, 1, 2, 16, 16, 16, 16, 8, 4, 8, 8, 2, 32]
  }

  /** The offset at which each field starts. */
  lemma {:induction false} Layout(j: nat)
    requires j < 14
    ensures Sum(FieldWidths()[..j]) == [0, 4, 5, 6, 8, 24, 40, 56, 72, 80, 84, 92, 100, 102][j]
  {
    var w := FieldWidths();
    if j > 0 { Layout(j - 1); }
    SumAppend(w, j);
  }

  lemma HeaderLength()
    ensures Sum(FieldWidths()) == 134
  {
    Layout(13);
    SumAppend(FieldWidths(), 14);
    assert FieldWidths()[..14] == FieldWidths();
  }

  lemma SumAppend(w: seq<nat>, j: nat)
    requires j <= |w|
    ensures j > 0 ==> Sum(w[..j]) == Sum(w[..j - 1]) + w[j - 1]
  {
    if j > 1 {
      assert w[..j][1..] == w[1..][..j - 1] && w[..j - 1][1..] == w[1..][..j - 2];
      SumAppend(w[1..], j - 1);
    } else if j == 1 {
      assert w[..1] == [w[0]];
    }
  }

  function HeaderFields(p: Packet, hash: Bytes32): (r: seq<seq<byte>>)
    requires |p.payload| < 0x1_0000
  {
    [MAGIC, [VERSION], [KindByte(p.kind)], ToBytes(p.flags, 2), p.transfer, p.object_, p.block, p.lease,
     ToBytes(p.generation, 8), ToBytes(p.sequence, 4), ToBytes(p.offset, 8), ToBytes(p.totalSize, 8),
     ToBytes(|p.payload|, 2), hash]
  }

  function Encode(p: Packet, k: Crypto): Option<seq<byte>> {
    if |p.payload| + HEADER_LEN > MAX_DATAGRAM then None
    else
      var header := Join(HeaderFields(p, k.hash(p.payload)));
      Some(header + k.tag(header, p.payload) + p.payload)
  }

  function Parse(f: seq<seq<byte>>, payload: seq<byte>): Option<Packet>
    requires |f| == 14 && forall i | 0 <= i < 14 :: |f[i]| == FieldWidths()[i]
  {
    assert FieldWidths()[2] == 1;
    var kind := KindOf(f[2][0]);
    if f[0] != MAGIC || f[1] != [VERSION] || kind.None? || FromBytes(f[12]) != |payload| then None
    else
      FieldRanges(f);
      Some(Packet(kind.value, FromBytes(f[3]), f[4], f[5], f[6], f[7], FromBytes(f[8]), FromBytes(f[9]), FromBytes(f[10]),
                  FromBytes(f[11]), payload))
  }

  lemma FieldRanges(f: seq<seq<byte>>)
    requires |f| == 14 && forall i | 0 <= i < 14 :: |f[i]| == FieldWidths()[i]
    ensures FromBytes(f[3]) < 0x1_0000 && FromBytes(f[8]) < 0x1_0000_0000_0000_0000 && FromBytes(f[9]) < 0x1_0000_0000
    ensures FromBytes(f[10]) < 0x1_0000_0000_0000_0000 && FromBytes(f[11]) < 0x1_0000_0000_0000_0000
    ensures |f[4]| == |f[5]| == |f[6]| == |f[7]| == 16 && |f[2]| == 1
  {
    hide Pow256, FromBytes, ToBytes;
    var w := FieldWidths();
    assert w[2] == 1 && w[3] == 2 && w[4] == w[5] == w[6] == w[7] == 16 && w[8] == 8 && w[9] == 4 && w[10] == w[11] == 8;
    Widths();
    ToFrom(f[3]);
    ToFrom(f[8]);
    ToFrom(f[9]);
    ToFrom(f[10]);
    ToFrom(f[11]);
  }

  function Decode(datagram: seq<byte>, k: Crypto): Option<Packet> {
    if !(HEADER_LEN <= |datagram| <= MAX_DATAGRAM) then None
    else
      HeaderLength();
      var header, tag, payload := datagram[..134], datagram[134..166], datagram[166..];
      var f := Cut(FieldWidths(), header);
      var p := Parse(f, payload);
      if p.None? || f[13] != k.hash(payload) || tag != k.tag(header, payload) then None else p
  }

  lemma FieldsFit(p: Packet, hash: Bytes32)
    requires |p.payload| < 0x1_0000
    ensures |HeaderFields(p, hash)| == |FieldWidths()| == 14
    ensures forall i | 0 <= i < 14 :: |HeaderFields(p, hash)[i]| == FieldWidths()[i]
  {
    var f, w := HeaderFields(p, hash), FieldWidths();
    assert |f[0]| == w[0] && |f[1]| == w[1] && |f[2]| == w[2] && |f[3]| == w[3] && |f[4]| == w[4] && |f[5]| == w[5];
    assert |f[6]| == w[6] && |f[7]| == w[7] && |f[8]| == w[8] && |f[9]| == w[9] && |f[10]| == w[10];
    assert |f[11]| == w[11] && |f[12]| == w[12] && |f[13]| == w[13];
  }

  lemma ParseFields(p: Packet, hash: Bytes32)
    requires |p.payload| < 0x1_0000
    ensures |HeaderFields(p, hash)| == 14 && forall i | 0 <= i < 14 :: |HeaderFields(p, hash)[i]| == FieldWidths()[i]
    ensures Parse(HeaderFields(p, hash), p.payload) == Some(p)
  {
    FieldsFit(p, hash);
    Widths();
    FromTo(p.flags, 2);
    FromTo(p.generation, 8);
    FromTo(p.sequence, 4);
    FromTo(p.offset, 8);
    FromTo(p.totalSize, 8);
    FromTo(|p.payload|, 2);
    hide ToBytes, FromBytes;
    var f := HeaderFields(p, hash);
    assert f[2][0] == KindByte(p.kind);
  }

  /** Decoding what was encoded gives the packet back. */
  lemma DecodeEncode(p: Packet, k: Crypto)
    requires Encode(p, k).Some?
    ensures Decode(Encode(p, k).value, k) == Some(p)
  {
    hide Parse, HeaderFields, Join, Cut, Sum, FieldWidths;
    var hash := k.hash(p.payload);
    var f := HeaderFields(p, hash);
    ParseFields(p, hash);
    LastWidth();
    HeaderLength();
    CutJoin(FieldWidths(), f);
    var header := Join(f);
    var w := Encode(p, k).value;
    assert w[..134] == header && w[134..166] == k.tag(header, p.payload) && w[166..] == p.payload;
    assert f[13] == hash by { LastField(p, hash); }
  }

  lemma LastField(p: Packet, hash: Bytes32)
    requires |p.payload| < 0x1_0000
    ensures |HeaderFields(p, hash)| == 14 && HeaderFields(p, hash)[13] == hash
  {
  }

  lemma FieldsParse(f: seq<seq<byte>>, payload: seq<byte>)
    requires |f| == 14 && forall i | 0 <= i < 14 :: |f[i]| == FieldWidths()[i]
    requires Parse(f, payload).Some? && |payload| < 0x1_0000
    ensures var p := Parse(f, payload).value; p.payload == payload && (|f[13]| == 32 ==> HeaderFields(p, f[13]) == f)
  {
    hide ToBytes, FromBytes, FieldWidths, HeaderFields;
    FieldRanges(f);
    if |f[13]| == 32 {
      NumbersBack(f, payload);
      OthersBack(f, payload);
      Same14(HeaderFields(Parse(f, payload).value, f[13]), f);
    }
  }

  lemma Same14(a: seq<seq<byte>>, b: seq<seq<byte>>)
    requires |a| == |b| == 14 && a[0] == b[0] && a[1] == b[1] && a[2] == b[2] && a[3] == b[3] && a[4] == b[4] && a[5] == b[5] && a[6] == b[6]
    requires a[7] == b[7] && a[8] == b[8] && a[9] == b[9] && a[10] == b[10] && a[11] == b[11] && a[12] == b[12] && a[13] == b[13]
    ensures a == b
  {
  }

  lemma WidthsAre()
    ensures var w := FieldWidths();
            && w[2] == 1 && w[3] == 2 && w[8] == 8 && w[9] == 4 && w[10] == 8 && w[11] == 8 && w[12] == 2
  {
  }

  lemma NumbersBack(f: seq<seq<byte>>, payload: seq<byte>)
    requires |f| == 14 && forall i | 0 <= i < 14 :: |f[i]| == FieldWidths()[i]
    requires Parse(f, payload).Some? && |payload| < 0x1_0000 && |f[13]| == 32
    ensures var h := HeaderFields(Parse(f, payload).value, f[13]);
            |h| == 14 && h[3] == f[3] && h[8] == f[8] && h[9] == f[9] && h[10] == f[10] && h[11] == f[11] && h[12] == f[12]
  {
    hide ToBytes, FromBytes, FieldWidths;
    WidthsAre();
    FieldRanges(f);
    ToFrom(f[3]);
    ToFrom(f[8]);
    ToFrom(f[9]);
    ToFrom(f[10]);
    ToFrom(f[11]);
    ToFrom(f[12]);
  }

  lemma OthersBack(f: seq<seq<byte>>, payload: seq<byte>)
    requires |f| == 14 && forall i | 0 <= i < 14 :: |f[i]| == FieldWidths()[i]
    requires Parse(f, payload).Some? && |payload| < 0x1_0000 && |f[13]| == 32
    ensures var h := HeaderFields(Parse(f, payload).value, f[13]);
            |h| == 14 && h[0] == f[0] && h[1] == f[1] && h[2] == f[2] && h[4] == f[4] && h[5] == f[5] && h[6] == f[6] && h[7] == f[7] && h[13] == f[13]
  {
    hide ToBytes, FromBytes, FieldWidths;
    WidthsAre();
    FieldRanges(f);
    assert f[2] == [f[2][0]];
  }

  /** Every accepted datagram is the encoding of what it decodes to: no second spelling is accepted. */
  lemma EncodeDecode(datagram: seq<byte>, k: Crypto)
    requires Decode(datagram, k).Some?
    ensures Encode(Decode(datagram, k).value, k) == Some(datagram)
  {
    hide Parse, HeaderFields, Join, Cut, Sum, FieldWidths;
    HeaderLength();
    var header, tag, payload := datagram[..134], datagram[134..166], datagram[166..];
    var f := Cut(FieldWidths(), header);
    LastWidth();
    FieldsParse(f, payload);
    JoinCut(FieldWidths(), header);
    assert datagram == header + tag + payload;
  }

  lemma LastWidth()
    ensures |FieldWidths()| == 14 && FieldWidths()[13] == 32
  {
  }

  lemma EncodedLength(p: Packet, k: Crypto)
    requires |p.payload| + HEADER_LEN <= MAX_DATAGRAM
    ensures Encode(p, k).Some? && |Encode(p, k).value| == HEADER_LEN + |p.payload|
  {
    hide HeaderFields, Join, Cut, Sum, FieldWidths;
    FieldsFit(p, k.hash(p.payload));
    HeaderLength();
    CutJoin(FieldWidths(), HeaderFields(p, k.hash(p.payload)));
  }

  // ---- Byte by byte ----

  /** `n` stands at `at`, most significant byte first, in two, four or eight bytes. */
  predicate Two(w: seq<byte>, at: nat, n: nat)
    requires at + 2 <= |w|
  {
    n == 0x100 * (w[at] as nat) + w[at + 1]
  }

  predicate Four(w: seq<byte>, at: nat, n: nat)
    requires at + 4 <= |w|
  {
    n == 0x100_0000 * (w[at] as nat) + 0x1_0000 * (w[at + 1] as nat) + 0x100 * (w[at + 2] as nat) + w[at + 3]
  }

  predicate Eight(w: seq<byte>, at: nat, n: nat)
    requires at + 8 <= |w|
  {
    n == 0x100_0000_0000_0000 * (w[at] as nat) + 0x1_0000_0000_0000 * (w[at + 1] as nat) + 0x100_0000_0000 * (w[at + 2] as nat) + 0x1_0000_0000 * (w[at + 3] as nat)
         + 0x100_0000 * (w[at + 4] as nat) + 0x1_0000 * (w[at + 5] as nat) + 0x100 * (w[at + 6] as nat) + w[at + 7]
  }

  function KindNumber(k: Kind): (n: nat)
    ensures 1 <= n <= 10
  {
    if k.StartKind? then 1 else if k.StartAckKind? then 2 else if k.DataKind? then 3 else if k.AckKind? then 4 else if k.NackKind? then 5
    else if k.FinKind? then 6 else if k.CompleteKind? then 7 else if k.AbortKind? then 8 else if k.ReadRequestKind? then 9 else 10
  }

  /** The datagram of a packet, byte by byte. */
  predicate OnTheWire(w: seq<byte>, p: Packet, k: Crypto) {
    && |w| == 166 + |p.payload|
    && w[0] == 0x54 && w[1] == 0x50 && w[2] == 0x55 && w[3] == 0x31 && w[4] == 1 && w[5] == KindNumber(p.kind) && Two(w, 6, p.flags)
    && w[8..24] == p.transfer && w[24..40] == p.object_ && w[40..56] == p.block && w[56..72] == p.lease
    && Eight(w, 72, p.generation) && Four(w, 80, p.sequence) && Eight(w, 84, p.offset) && Eight(w, 92, p.totalSize)
    && Two(w, 100, |p.payload|) && w[102..134] == k.hash(p.payload)
    && w[134..166] == k.tag(w[..134], p.payload) && w[166..] == p.payload
  }

  lemma FromTwo(s: seq<byte>)
    requires |s| == 2
    ensures FromBytes(s) == 0x100 * (s[0] as nat) + s[1]
  {
    FromOne(s);
    FromOne(s[..1]);
    assert s[..1][..0] == [] && FromBytes([]) == 0;
  }

  lemma FromFour(s: seq<byte>)
    requires |s| == 4
    ensures FromBytes(s) == 0x100_0000 * (s[0] as nat) + 0x1_0000 * (s[1] as nat) + 0x100 * (s[2] as nat) + s[3]
  {
    FromTwo(s[..2]);
    assert s[..3][..2] == s[..2];
    hide FromBytes;
    FromOne(s[..3]);
    FromOne(s);
  }

  lemma FromEight(s: seq<byte>)
    requires |s| == 8
    ensures FromBytes(s) == 0x100_0000_0000_0000 * (s[0] as nat) + 0x1_0000_0000_0000 * (s[1] as nat) + 0x100_0000_0000 * (s[2] as nat) + 0x1_0000_0000 * (s[3] as nat)
                            + 0x100_0000 * (s[4] as nat) + 0x1_0000 * (s[5] as nat) + 0x100 * (s[6] as nat) + s[7]
  {
    FromFour(s[..4]);
    assert s[..5][..4] == s[..4] && s[..6][..5] == s[..5] && s[..7][..6] == s[..6];
    hide FromBytes;
    FromOne(s[..5]);
    FromOne(s[..6]);
    FromOne(s[..7]);
    FromOne(s);
  }

  lemma FromOne(s: seq<byte>)
    requires s != []
    ensures FromBytes(s) == FromBytes(s[..|s| - 1]) * 256 + s[|s| - 1]
  {
  }

  /** Where field `j` lies in the joined fields. */
  lemma {:induction false} FieldAt(widths: seq<nat>, fields: seq<seq<byte>>, j: nat)
    requires |fields| == |widths| && j < |fields| && forall i | 0 <= i < |fields| :: |fields[i]| == widths[i]
    ensures var at := Sum(widths[..j]); at + widths[j] <= |Join(fields)| && Join(fields)[at..at + widths[j]] == fields[j]
  {
    if j > 0 {
      FieldAt(widths[1..], fields[1..], j - 1);
      var at := Sum(widths[1..][..j - 1]);
      assert widths[..j][1..] == widths[1..][..j - 1] && widths[..j][0] == widths[0];
      assert Join(fields)[widths[0] + at..widths[0] + at + widths[j]] == Join(fields[1..])[at..at + widths[j]];
    } else {
      assert widths[..0] == [];
    }
  }

  lemma HeaderAt(p: Packet, hash: Bytes32, j: nat)
    requires |p.payload| < 0x1_0000 && j < 14
    ensures var at, header := [0, 4, 5, 6, 8, 24, 40, 56, 72, 80, 84, 92, 100, 102][j], Join(HeaderFields(p, hash));
            |header| == 134 && |HeaderFields(p, hash)| == |FieldWidths()| == 14
            && at + FieldWidths()[j] <= 134 && header[at..at + FieldWidths()[j]] == HeaderFields(p, hash)[j]
  {
    hide HeaderFields, FieldWidths, Join, Sum, Cut;
    FieldsFit(p, hash);
    HeaderLength();
    CutJoin(FieldWidths(), HeaderFields(p, hash));
    Layout(j);
    FieldAt(FieldWidths(), HeaderFields(p, hash), j);
  }

  lemma NumbersOnTheWire(p: Packet, hash: Bytes32)
    requires |p.payload| < 0x1_0000
    ensures var h := Join(HeaderFields(p, hash));
            |h| == 134 && Two(h, 6, p.flags) && Eight(h, 72, p.generation) && Four(h, 80, p.sequence) && Eight(h, 84, p.offset)
            && Eight(h, 92, p.totalSize) && Two(h, 100, |p.payload|)
  {
    Widths();
    hide ToBytes, FromBytes, Join, Sum, Pow256;
    var h := Join(HeaderFields(p, hash));
    HeaderAt(p, hash, 3);
    HeaderAt(p, hash, 8);
    HeaderAt(p, hash, 9);
    HeaderAt(p, hash, 10);
    HeaderAt(p, hash, 11);
    HeaderAt(p, hash, 12);
    TwoAt(h, 6, p.flags);
    EightAt(h, 72, p.generation);
    FourAt(h, 80, p.sequence);
    EightAt(h, 84, p.offset);
    EightAt(h, 92, p.totalSize);
    TwoAt(h, 100, |p.payload|);
  }

  lemma TwoAt(h: seq<byte>, at: nat, n: nat)
    requires at + 2 <= |h| && n < 0x1_0000 && h[at..at + 2] == ToBytes(n, 2)
    ensures Two(h, at, n)
  {
    Widths();
    FromTo(n, 2);
    FromTwo(h[at..at + 2]);
  }

  lemma FourAt(h: seq<byte>, at: nat, n: nat)
    requires at + 4 <= |h| && n < 0x1_0000_0000 && h[at..at + 4] == ToBytes(n, 4)
    ensures Four(h, at, n)
  {
    Widths();
    hide ToBytes, FromBytes, Pow256;
    FromTo(n, 4);
    FromFour(h[at..at + 4]);
  }

  lemma EightAt(h: seq<byte>, at: nat, n: nat)
    requires at + 8 <= |h| && n < 0x1_0000_0000_0000_0000 && h[at..at + 8] == ToBytes(n, 8)
    ensures Eight(h, at, n)
  {
    Widths();
    hide ToBytes, FromBytes, Pow256;
    FromTo(n, 8);
    FromEight(h[at..at + 8]);
  }

  lemma IdsOnTheWire(p: Packet, hash: Bytes32)
    requires |p.payload| < 0x1_0000
    ensures var h := Join(HeaderFields(p, hash));
            |h| == 134 && h[0..4] == [0x54, 0x50, 0x55, 0x31] && h[4] == 1 && h[5] == KindNumber(p.kind)
            && h[8..24] == p.transfer && h[24..40] == p.object_ && h[40..56] == p.block && h[56..72] == p.lease && h[102..134] == hash
  {
    hide ToBytes, Join, Sum;
    var h := Join(HeaderFields(p, hash));
    HeaderAt(p, hash, 0);
    HeaderAt(p, hash, 1);
    HeaderAt(p, hash, 2);
    HeaderAt(p, hash, 4);
    HeaderAt(p, hash, 5);
    HeaderAt(p, hash, 6);
    HeaderAt(p, hash, 7);
    HeaderAt(p, hash, 13);
    assert h[4] == h[4..5][0] && h[5] == h[5..6][0];
  }

  /** A packet is refused exactly when it is too long; otherwise this is its datagram. */
  lemma EncodedOnTheWire(p: Packet, k: Crypto)
    ensures Encode(p, k).Some? <==> |p.payload| + 166 <= 1400
    ensures Encode(p, k).Some? ==> OnTheWire(Encode(p, k).value, p, k)
  {
    if |p.payload| + 166 <= 1400 {
      hide HeaderFields, Join, Two, Four, Eight;
      var header := Join(HeaderFields(p, k.hash(p.payload)));
      NumbersOnTheWire(p, k.hash(p.payload));
      IdsOnTheWire(p, k.hash(p.payload));
      var w := Encode(p, k).value;
      assert w[..134] == header && w[134..166] == k.tag(header, p.payload) && w[166..] == p.payload;
      InHeader(w, header, p);
      assert header[0..4][0] == header[0] && header[0..4][1] == header[1] && header[0..4][2] == header[2] && header[0..4][3] == header[3];
      assert w[8..24] == header[8..24] && w[24..40] == header[24..40] && w[40..56] == header[40..56] && w[56..72] == header[56..72];
      assert w[102..134] == header[102..134];
    }
  }

  lemma InHeader(w: seq<byte>, header: seq<byte>, p: Packet)
    requires |header| == 134 <= |w| && w[..134] == header && |p.payload| < 0x1_0000
    requires Two(header, 6, p.flags) && Eight(header, 72, p.generation) && Four(header, 80, p.sequence) && Eight(header, 84, p.offset)
    requires Eight(header, 92, p.totalSize) && Two(header, 100, |p.payload|)
    ensures Two(w, 6, p.flags) && Eight(w, 72, p.generation) && Four(w, 80, p.sequence) && Eight(w, 84, p.offset)
    ensures Eight(w, 92, p.totalSize) && Two(w, 100, |p.payload|)
    ensures forall i | 0 <= i < 134 :: w[i] == header[i]
  {
    assert forall i | 0 <= i < 134 :: w[i] == header[i];
  }

  /** The encoder appends field after field to one buffer. */
  method EncodePacket(p: Packet, k: Crypto) returns (r: Option<seq<byte>>)
    ensures r == Encode(p, k)
    ensures r.Some? <==> |p.payload| + 166 <= 1400
    ensures r.Some? ==> OnTheWire(r.value, p, k)
  {
    hide OnTheWire, HeaderFields;
    EncodedOnTheWire(p, k);
    if |p.payload| + HEADER_LEN > MAX_DATAGRAM { return None; }
    var fields := HeaderFields(p, k.hash(p.payload));
    var bytes: seq<byte> := [];
    for i := 0 to |fields|
      invariant bytes + Join(fields[i..]) == Join(fields)
    {
      assert fields[i..][1..] == fields[i + 1..];
      bytes := bytes + fields[i];
    }
    assert fields[|fields|..] == [] && bytes + [] == bytes;
    var tag := k.tag(bytes, p.payload);
    bytes := bytes + tag;
    bytes := bytes + p.payload;
    r := Some(bytes);
  }
}
