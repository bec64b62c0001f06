/** Hook captures on disk: one Enhanced Packet Block per packet (section 4.3 of draft-ietf-opsawg-pcapng), its
    options (section 3.5), the writer, and the reader the merge uses. */
module HookBlock {
  import opened Words

  type Bytes = seq<Byte>

  const EPB := 6
  const OPT_END := 0
  const OPT_COMMENT := 1
  const OPT_PACKET_ID := 5
  const MAX_BLOCK := 0x10_0000
  const HEADER := 28
  const MAX_FIELD := 65535

  // ---------------------------------------------------------------- little-endian fields

  /** The i-th byte of `n`, lowest first. */
  function Digit(n: nat, i: nat): Byte
    decreases i
  {
    if i == 0 then n % 256 else Digit(n / 256, i - 1)
  }

  function Le(n: nat, size: nat): (s: Bytes)
    ensures |s| == size
  {
    seq(size, i requires 0 <= i < size => Digit(n, i))
  }

  lemma {:induction false} OfLe(n: nat, size: nat)
    requires n < Pow(256, size)
    ensures Of(Le(n, size)) == n
    decreases size
  {
    if size > 0 {
      OfLe(n / 256, size - 1);
      assert Le(n, size)[1..] == Le(n / 256, size - 1);
    }
  }

  /** Two adjacent 16-bit fields written as one 32-bit one. */
  lemma {:induction false} TwoHalves(lo: nat, hi: nat)
    requires lo < U16
    ensures Le(lo, 2) + Le(hi, 2) == Le(lo + hi * U16, 4)
  {
    var n := lo + hi * U16;
    assert n / 256 == lo / 256 + 256 * hi;
    assert n / 256 / 256 == hi;
    assert Digit(n, 2) == Digit(n / 256, 1) == Digit(hi, 0);
    assert Digit(n, 3) == Digit(n / 256, 2) == Digit(n / 256 / 256, 1);
  }

  lemma {:induction false} Widths()
    ensures Pow(256, 2) == 0x1_0000 && Pow(256, 4) == 0x1_0000_0000 && Pow(256, 8) == 0x1_0000_0000_0000_0000
  {
    assert Pow(256, 1) == 256;
    assert Pow(256, 3) == 256 * Pow(256, 2);
    assert Pow(256, 5) == 256 * Pow(256, 4);
    assert Pow(256, 6) == 256 * Pow(256, 5);
    assert Pow(256, 7) == 256 * Pow(256, 6);
  }

  // ---------------------------------------------------------------- sizes

  function Padded(n: nat): (p: nat)
    ensures p % 4 == 0 && n <= p < n + 4
  {
    (n + 3) / 4 * 4
  }

  function Zeros(n: nat): (s: Bytes)
    ensures |s| == n
  {
    seq(n, _ => 0)
  }

  function EpbSize(caplen: nat): nat {
    32 + Padded(caplen)
  }

  function HookEpbSize(caplen: nat, packetId: bool, comment: nat): (n: nat)
    ensures n % 4 == 0 && n >= 32
    ensures caplen <= MAX_FIELD && comment <= MAX_FIELD ==> n < MAX_BLOCK
  {
    EpbSize(caplen) + (if packetId then 12 else 0) + (if comment > 0 then 4 + Padded(comment) else 0) +
    (if packetId || comment > 0 then 4 else 0)
  }

  // ---------------------------------------------------------------- a written block

  datatype Packet = Packet(iface: nat, ts: nat, data: Bytes, origLen: nat, id: nat, comment: Bytes)

  const U16: nat := 0x1_0000
  const U32: nat := 0x1_0000_0000
  const U64: nat := 0x1_0000_0000_0000_0000

  predicate PacketOk(p: Packet) {
    p.iface < U32 && p.ts < U64 && |p.data| <= MAX_FIELD && p.origLen < U32 && p.id < U64 && |p.comment| <= MAX_FIELD
  }

  /** Never below the captured length. */
  function OrigLength(p: Packet): nat {
    if p.origLen < |p.data| then |p.data| else p.origLen
  }

  /** The original length written is the one given, unless more was captured than it says. */
  lemma {:induction false} OrigLengthIsGiven(p: Packet)
    ensures |p.data| <= p.origLen ==> OrigLength(p) == p.origLen
    ensures |p.data| > p.origLen ==> OrigLength(p) == |p.data|
  {
  }

  function IdOption(id: nat): (s: Bytes)
    ensures |s| == if id != 0 then 12 else 0
  {
    if id != 0 then Le(OPT_PACKET_ID + 8 * U16, 4) + Le(id, 8) else []
  }

  function CommentOption(c: Bytes): (s: Bytes)
    ensures |s| == if c != [] then 4 + Padded(|c|) else 0
  {
    if c != [] then Le(OPT_COMMENT + |c| * U16, 4) + c + Zeros(Padded(|c|) - |c|) else []
  }

  function Options(p: Packet): (s: Bytes)
    ensures |s| == HookEpbSize(|p.data|, p.id != 0, |p.comment|) - EpbSize(|p.data|)
  {
    IdOption(p.id) + CommentOption(p.comment) + (if p.id != 0 || p.comment != [] then Le(OPT_END, 4) else [])
  }

  function Head(p: Packet, total: nat): (s: Bytes)
    ensures |s| == HEADER
  {
    Le(EPB, 4) + Le(total, 4) + Le(p.iface, 4) + Le(p.ts / U32, 4) + Le(p.ts % U32, 4) + Le(|p.data|, 4) + Le(OrigLength(p), 4)
  }

  function Block(p: Packet): (s: Bytes)
    ensures |s| == HookEpbSize(|p.data|, p.id != 0, |p.comment|)
  {
    var total := HookEpbSize(|p.data|, p.id != 0, |p.comment|);
    Head(p, total) + p.data + Zeros(Padded(|p.data|) - |p.data|) + Options(p) + Le(total, 4)
  }

  /** A block is its head, its padded data, its options and its length again. */
  lemma {:induction false} BlockParts(w: Bytes, p: Packet, options: Bytes)
    requires options == Options(p)
    ensures var total := HookEpbSize(|p.data|, p.id != 0, |p.comment|);
      w + Head(p, total) + (p.data + Zeros(Padded(|p.data|) - |p.data|)) + (options + Le(total, 4)) == w + Block(p)
  {
  }

  // ---------------------------------------------------------------- the writer

  /** Writes a little-endian field into the scratch header. */
  method Put(hdr: array<Byte>, at: nat, n: nat, size: nat)
    requires at + size <= hdr.Length
    modifies hdr
    ensures hdr[..at] == old(hdr[..at]) && hdr[at..at + size] == Le(n, size) && hdr[at + size..] == old(hdr[at + size..])
  {
    var rest := n;
    for k := 0 to size
      invariant hdr[..at] == old(hdr[..at]) && hdr[at + size..] == old(hdr[at + size..])
      invariant forall j | 0 <= j < k :: hdr[at + j] == Digit(n, j)
      invariant Shifted(n, rest, k)
    {
      hdr[at + k] := rest % 256;
      ShiftOne(n, rest, k);
      rest := rest / 256;
    }
  }

  /** `rest` is `n` without its lowest `k` bytes. */
  ghost predicate Shifted(n: nat, rest: nat, k: nat) {
    forall j: nat :: Digit(rest, j) == Digit(n, k + j)
  }

  lemma {:induction false} ShiftOne(n: nat, rest: nat, k: nat)
    requires Shifted(n, rest, k)
    ensures rest % 256 == Digit(n, k) && Shifted(n, rest / 256, k + 1)
  {
    assert Digit(rest, 0) == Digit(n, k + 0);
    forall j: nat
      ensures Digit(rest / 256, j) == Digit(n, k + 1 + j)
    {
      assert Digit(rest, j + 1) == Digit(n, k + (j + 1));
    }
  }

  /** The capture file's writer: a scratch header reused by every block, and the bytes written so far. */
  class Writer {
    const hdr: array<Byte>
    var written: Bytes

    ghost predicate Valid()
      reads this
    {
      hdr.Length == 32
    }

    constructor ()
      ensures Valid() && written == [] && fresh(hdr)
    {
      hdr := new Byte[32](_ => 0);
      written := [];
    }

    /** The 28 bytes every block starts with. */
    method PutHead(p: Packet, total: nat)
      requires Valid() && PacketOk(p)
      modifies hdr
      ensures hdr[..HEADER] == Head(p, total)
    {
      Put(hdr, 0, EPB, 4);
      Put(hdr, 4, total, 4);
      assert hdr[..8] == hdr[..4] + hdr[4..8];
      Put(hdr, 8, p.iface, 4);
      assert hdr[..12] == hdr[..8] + hdr[8..12];
      Put(hdr, 12, p.ts / U32, 4);
      assert hdr[..16] == hdr[..12] + hdr[12..16];
      Put(hdr, 16, p.ts % U32, 4);
      assert hdr[..20] == hdr[..16] + hdr[16..20];
      Put(hdr, 20, |p.data|, 4);
      assert hdr[..24] == hdr[..20] + hdr[20..24];
      Put(hdr, 24, OrigLength(p), 4);
      assert hdr[..28] == hdr[..24] + hdr[24..28];
    }

    /** The data and its padding. */
    method WriteData(data: Bytes)
      modifies this`written
      ensures written == old(written) + (data + Zeros(Padded(|data|) - |data|))
    {
      written := written + data;
      var pad := Padded(|data|) - |data|;
      if pad > 0 {
        written := written + Zeros(pad);
      }
    }

    /** One block without options, on interface 0. */
    method WritePacket(p: Packet)
      requires Valid() && PacketOk(p)
      modifies hdr, this`written
      ensures written == old(written) + Block(p.(iface := 0, id := 0, comment := []))
    {
      var q := p.(iface := 0, id := 0, comment := []);
      var total := EpbSize(|p.data|);
      PutHead(q, total);
      written := written + hdr[..HEADER];
      WriteData(p.data);
      Put(hdr, 28, total, 4);
      written := written + hdr[28..32];
      assert Options(q) == [];
    }

    /** A packet id option and the end of options, in the scratch header. */
    method PutId(id: nat)
      requires Valid() && id != 0
      modifies hdr
      ensures hdr[..16] == IdOption(id) + Le(OPT_END, 4)
    {
      TwoHalves(OPT_PACKET_ID, 8);
      TwoHalves(OPT_END, 0);
      Put(hdr, 0, OPT_PACKET_ID, 2);
      Put(hdr, 2, 8, 2);
      assert hdr[..4] == hdr[..2] + hdr[2..4];
      Put(hdr, 4, id, 8);
      assert hdr[..12] == hdr[..4] + hdr[4..12];
      Put(hdr, 12, OPT_END, 2);
      assert hdr[..14] == hdr[..12] + hdr[12..14];
      Put(hdr, 14, 0, 2);
      assert hdr[..16] == hdr[..14] + hdr[14..16];
    }

    /** The options and the trailing length. */
    method PutTail(id: nat, total: nat)
      requires Valid() && id != 0
      modifies hdr
      ensures hdr[..20] == IdOption(id) + Le(OPT_END, 4) + Le(total, 4)
    {
      PutId(id);
      Put(hdr, 16, total, 4);
      assert hdr[..20] == hdr[..16] + hdr[16..20];
    }

    /** One block with a packet id and no comment; the options and trailer reuse the header's scratch. */
    method WritePacketId(p: Packet)
      requires Valid() && PacketOk(p) && p.id != 0 && p.comment == []
      modifies hdr, this`written
      ensures written == old(written) + Block(p)
    {
      IdOnly(p);
      BlockParts(written, p, IdOption(p.id) + Le(OPT_END, 4));
      var total := EpbSize(|p.data|) + 16;
      PutHead(p, total);
      written := written + hdr[..HEADER];
      WriteData(p.data);
      PutTail(p.id, total);
      written := written + hdr[..20];
    }

    /** One block with a packet id when nonzero and a comment when non-empty. */
    method WriteHookPacket(p: Packet) returns (ok: bool)
      requires Valid() && PacketOk(p.(comment := []))
      modifies hdr, this`written
      ensures ok <==> |p.comment| <= MAX_FIELD
      ensures written == if ok then old(written) + Block(p) else old(written)
    {
      if p.comment == [] && p.id != 0 {
        WritePacketId(p);
        return true;
      }
      if |p.comment| > MAX_FIELD {
        return false;
      }
      var total := HookEpbSize(|p.data|, p.id != 0, |p.comment|);
      var b := AppendHead(p, total);
      b := b + (p.data + Zeros(Padded(|p.data|) - |p.data|));
      var options := AppendOptions(p);
      b := b + (options + Le(total, 4));
      BlockParts([], p, options);
      written := written + b;
      return true;
    }
  }

  /** The seven fields of the head, appended one by one. */
  method AppendHead(p: Packet, total: nat) returns (b: Bytes)
    ensures b == [] + Head(p, total)
  {
    b := Le(EPB, 4) + Le(total, 4);
    b := b + Le(p.iface, 4);
    b := b + Le(p.ts / U32, 4);
    b := b + Le(p.ts % U32, 4);
    b := b + Le(|p.data|, 4);
    b := b + Le(OrigLength(p), 4);
  }

  method AppendOptions(p: Packet) returns (b: Bytes)
    requires p.comment != [] || p.id == 0
    ensures b == Options(p)
  {
    b := [];
    if p.id != 0 {
      b := Le(OPT_PACKET_ID + 8 * U16, 4) + Le(p.id, 8);
    }
    if p.comment != [] {
      b := b + (Le(OPT_COMMENT + |p.comment| * U16, 4) + p.comment + Zeros(Padded(|p.comment|) - |p.comment|));
      b := b + Le(OPT_END, 4);
    }
  }

  lemma {:induction false} IdOnly(p: Packet)
    requires p.id != 0 && p.comment == []
    ensures Options(p) == IdOption(p.id) + Le(OPT_END, 4)
    ensures HookEpbSize(|p.data|, p.id != 0, |p.comment|) == EpbSize(|p.data|) + 16
  {
  }

  // ---------------------------------------------------------------- the reader

  datatype ReadError = EndOfFile | Truncated | BadLength | LengthsDisagree | NotAnEpb | BadField | BadOptions
  datatype Read<T> = Good(value: T) | Bad(why: ReadError)

  /** The next block of a stream and what follows it. */
  function ReadBlock(stream: Bytes): (r: Read<(Bytes, Bytes)>)
    ensures r.Good? ==> stream == r.value.0 + r.value.1 && |r.value.0| % 4 == 0 && 12 <= |r.value.0| <= MAX_BLOCK
  {
    if stream == [] then Bad(EndOfFile)
    else if |stream| < 8 then Bad(Truncated)
    else
      var n := Of(stream[4..8]);
      if n < 12 || n % 4 != 0 || n > MAX_BLOCK then Bad(BadLength)
      else if |stream| < n then Bad(Truncated)
      else if Of(stream[n - 4..n]) != n then Bad(LengthsDisagree)
      else Good((stream[..n], stream[n..]))
  }

  function Code(o: Bytes, pos: nat): nat
    requires pos + 4 <= |o|
  {
    Of(o[pos..pos + 2])
  }

  function Len(o: Bytes, pos: nat): nat
    requires pos + 4 <= |o|
  {
    Of(o[pos + 2..pos + 4])
  }

  predicate EndAt(o: Bytes, pos: nat) {
    pos + 4 <= |o| && Code(o, pos) == OPT_END && Len(o, pos) == 0
  }

  predicate IdAt(o: Bytes, pos: nat) {
    pos + 12 <= |o| && Code(o, pos) == OPT_PACKET_ID && Len(o, pos) == 8 && Of(o[pos + 4..pos + 12]) != 0
  }

  predicate CommentAt(o: Bytes, pos: nat) {
    pos + 4 <= |o| && Code(o, pos) == OPT_COMMENT && 0 < Len(o, pos) && pos + 4 + Len(o, pos) <= |o|
  }

  /** What the options may look like from `pos` on: an id unless one was seen, a comment, the end.  Bytes after
      the end are not looked at. */
  predicate Shape(o: Bytes, hasId: bool) {
    if o == [] then !hasId
    else
      (hasId ==> IdAt(o, 0)) &&
      var pos := if hasId then 12 else 0;
      EndAt(o, pos) || (CommentAt(o, pos) && EndAt(o, pos + 4 + Padded(Len(o, pos))))
  }

  /** The option loop as the reader runs it. */
  method CheckOptions(o: Bytes) returns (r: Read<bool>)
    ensures r.Good? ==> Shape(o, r.value)
    ensures r.Bad? ==> !Shape(o, false) && !Shape(o, true)
  {
    if o == [] {
      return Good(false);
    }
    var hasId, sawComment, pos := false, false, 0;
    ghost var afterId := 0;
    while pos < |o|
      invariant hasId ==> IdAt(o, 0)
      invariant afterId == if hasId then 12 else 0
      invariant if sawComment then CommentAt(o, afterId) && pos == afterId + 4 + Padded(Len(o, afterId)) else pos == afterId
      decreases |o| - pos
    {
      if |o| - pos < 4 {
        return Bad(BadOptions);
      }
      var code, n := Code(o, pos), Len(o, pos);
      if code == OPT_END {
        if n != 0 {
          return Bad(BadOptions);
        }
        return Good(hasId);
      }
      if pos + 4 + n > |o| {
        return Bad(BadOptions);
      }
      if code == OPT_PACKET_ID {
        if hasId || sawComment || n != 8 || Of(o[pos + 4..pos + 12]) == 0 {
          return Bad(BadOptions);
        }
        hasId, afterId := true, 12;
      } else if code == OPT_COMMENT {
        if sawComment || n == 0 {
          return Bad(BadOptions);
        }
        sawComment := true;
      } else {
        return Bad(BadOptions);
      }
      pos := pos + 4 + Padded(n);
    }
    return Bad(BadOptions);
  }

  // ---------------------------------------------------------------- round trip

  lemma {:induction false} Field(a: Bytes, n: nat, size: nat, b: Bytes)
    requires n < Pow(256, size)
    ensures var s := a + Le(n, size) + b; s[|a|..|a| + size] == Le(n, size) && Of(s[|a|..|a| + size]) == n
  {
    OfLe(n, size);
    var s := a + Le(n, size) + b;
    assert s[|a|..|a| + size] == Le(n, size);
  }

  /** Both halves of an option header. */
  lemma {:induction false} OptionHeader(a: Bytes, code: nat, n: nat, b: Bytes)
    requires code < U16 && n < U16
    ensures var s := a + Le(code + n * U16, 4) + b; Code(s, |a|) == code && Len(s, |a|) == n
  {
    Widths();
    TwoHalves(code, n);
    var s := a + Le(code + n * U16, 4) + b;
    assert s == a + Le(code, 2) + (Le(n, 2) + b);
    Field(a, code, 2, Le(n, 2) + b);
    assert s == (a + Le(code, 2)) + Le(n, 2) + b;
    Field(a + Le(code, 2), n, 2, b);
  }

  lemma {:induction false} IdWritten(id: nat, b: Bytes)
    requires 0 < id < U64
    ensures IdAt(IdOption(id) + b, 0) && Of((IdOption(id) + b)[4..12]) == id
  {
    Widths();
    var h := Le(OPT_PACKET_ID + 8 * U16, 4);
    var s := IdOption(id) + b;
    assert s == [] + h + (Le(id, 8) + b);
    OptionHeader([], OPT_PACKET_ID, 8, Le(id, 8) + b);
    assert s == h + Le(id, 8) + b;
    Field(h, id, 8, b);
  }

  lemma {:induction false} CommentWritten(a: Bytes, c: Bytes, b: Bytes)
    requires 0 < |c| <= MAX_FIELD
    ensures var s := a + CommentOption(c) + b; CommentAt(s, |a|) && Len(s, |a|) == |c|
  {
    var rest := c + Zeros(Padded(|c|) - |c|) + b;
    var s := a + CommentOption(c) + b;
    assert s == a + Le(OPT_COMMENT + |c| * U16, 4) + rest;
    OptionHeader(a, OPT_COMMENT, |c|, rest);
  }

  lemma {:induction false} CommentBytes(a: Bytes, c: Bytes, b: Bytes)
    requires c != []
    ensures (a + CommentOption(c) + b)[|a| + 4..|a| + 4 + |c|] == c
  {
    var h, pad := Le(OPT_COMMENT + |c| * U16, 4), Zeros(Padded(|c|) - |c|);
    Slice(a + h, c, pad + b);
    Regroup(a, h, c, pad, b);
  }

  lemma {:induction false} Regroup(a: Bytes, h: Bytes, c: Bytes, pad: Bytes, b: Bytes)
    ensures a + (h + c + pad) + b == (a + h) + c + (pad + b)
  {
  }

  lemma {:induction false} EndWritten(a: Bytes)
    ensures EndAt(a + Le(OPT_END, 4), |a|)
  {
    OptionHeader(a, OPT_END, 0, []);
    assert a + Le(OPT_END + 0 * U16, 4) + [] == a + Le(OPT_END, 4);
  }

  lemma {:induction false} EndIsZeros(a: Bytes)
    ensures var o := a + Le(OPT_END, 4); o[|o| - 4..] == [0, 0, 0, 0]
  {
    var e := Le(OPT_END, 4);
    assert forall i | 0 <= i < 4 :: e[i] == 0 by {
      assert Digit(0, 1) == Digit(0, 0) && Digit(0, 2) == Digit(0, 1) && Digit(0, 3) == Digit(0, 2);
    }
  }

  /** The options as the standard has them: epb_packetid (5, eight bytes), opt_comment (1), opt_endofopt (0). */
  ghost predicate OptionsHold(p: Packet, o: Bytes) {
    var at := if p.id != 0 then 12 else 0;
    (p.id != 0 ==> |o| >= 16 && Of(o[0..2]) == 5 && Of(o[2..4]) == 8 && Of(o[4..12]) == p.id) &&
    (p.comment != [] ==>
      |o| >= at + 8 + |p.comment| && Of(o[at..at + 2]) == 1 && Of(o[at + 2..at + 4]) == |p.comment| && o[at + 4..at + 4 + |p.comment|] == p.comment) &&
    (o == [] <==> p.id == 0 && p.comment == []) && (o != [] ==> |o| >= 4 && o[|o| - 4..] == [0, 0, 0, 0])
  }

  /** The options the writer writes are accepted, with an id reported exactly when it is nonzero. */
  lemma {:induction false} OptionsRoundTrip(p: Packet)
    requires PacketOk(p)
    ensures Shape(Options(p), p.id != 0) && !Shape(Options(p), p.id == 0) && OptionsHold(p, Options(p))
  {
    var o, ids, com := Options(p), IdOption(p.id), CommentOption(p.comment);
    if o != [] {
      if p.id != 0 {
        assert o == ids + (com + Le(OPT_END, 4));
        IdWritten(p.id, com + Le(OPT_END, 4));
      }
      EndWritten(ids + com);
      EndIsZeros(ids + com);
      if p.comment != [] {
        CommentWritten(ids, p.comment, Le(OPT_END, 4));
        CommentBytes(ids, p.comment, Le(OPT_END, 4));
        if p.id == 0 { assert Code(o, 0) == OPT_COMMENT; }
      } else {
        assert ids + com == ids;
      }
    }
  }

  /** What the merge takes from a block. */
  datatype Parsed = Parsed(iface: nat, ts: nat, caplen: nat, data: Bytes, hasId: bool)

  /** The merge's reading of one block, given how many interfaces there are. */
  method ParseBlock(b: Bytes, hooks: nat) returns (r: Read<Parsed>)
    requires |b| % 4 == 0 && |b| >= 12
    ensures r.Good? ==> Fields(b, hooks) && r.value == Parsed(Of(b[8..12]), Of(b[12..16]) * U32 + Of(b[16..20]), Of(b[20..24]), b[28..28 + Of(b[20..24])], r.value.hasId)
    ensures r.Good? ==> Shape(OptionBytes(b), r.value.hasId)
    ensures r.Bad? ==> !Fields(b, hooks) || (!Shape(OptionBytes(b), true) && !Shape(OptionBytes(b), false))
  {
    if Of(b[0..4]) != EPB || |b| < EpbSize(0) {
      return Bad(NotAnEpb);
    }
    var iface, caplen := Of(b[8..12]), Of(b[20..24]);
    if iface >= hooks || caplen > MAX_FIELD || |b| < EpbSize(caplen) {
      return Bad(BadField);
    }
    var hasId := CheckOptions(b[HEADER + Padded(caplen)..|b| - 4]);
    if hasId.Bad? {
      return Bad(hasId.why);
    }
    return Good(Parsed(iface, Of(b[12..16]) * U32 + Of(b[16..20]), caplen, b[28..28 + caplen], hasId.value));
  }

  predicate Fields(b: Bytes, hooks: nat) {
    |b| >= EpbSize(0) && Of(b[0..4]) == EPB && Of(b[8..12]) < hooks && Of(b[20..24]) <= MAX_FIELD && |b| >= EpbSize(Of(b[20..24]))
  }

  function OptionBytes(b: Bytes): Bytes
    requires |b| >= EpbSize(0) && |b| >= EpbSize(Of(b[20..24]))
  {
    b[HEADER + Padded(Of(b[20..24]))..|b| - 4]
  }

  /** Each field of a written block, where the reader looks for it. */
  lemma {:induction false} HeadFields(p: Packet, total: nat, rest: Bytes)
    requires PacketOk(p) && total < U32
    ensures var s := Head(p, total) + rest;
      Of(s[0..4]) == EPB && Of(s[4..8]) == total && Of(s[8..12]) == p.iface && Of(s[12..16]) == p.ts / U32 &&
      Of(s[16..20]) == p.ts % U32 && Of(s[20..24]) == |p.data| && Of(s[24..28]) == OrigLength(p)
  {
    Widths();
    var s := Head(p, total) + rest;
    var f0, f1, f2, f3, f4, f5, f6 := Le(EPB, 4), Le(total, 4), Le(p.iface, 4), Le(p.ts / U32, 4), Le(p.ts % U32, 4), Le(|p.data|, 4), Le(OrigLength(p), 4);
    assert s[0..4] == f0 && s[4..8] == f1 && s[8..12] == f2 && s[12..16] == f3 && s[16..20] == f4 && s[20..24] == f5 && s[24..28] == f6;
    OfLe(EPB, 4);
    OfLe(total, 4);
    OfLe(p.iface, 4);
    OfLe(p.ts / U32, 4);
    OfLe(p.ts % U32, 4);
    OfLe(|p.data|, 4);
    OfLe(OrigLength(p), 4);
  }

  /** A block framed by its length reads back whole. */
  lemma {:induction false} ReadFramed(b: Bytes, rest: Bytes)
    requires 12 <= |b| <= MAX_BLOCK && |b| % 4 == 0 && Of(b[4..8]) == |b| && Of(b[|b| - 4..]) == |b|
    ensures ReadBlock(b + rest) == Good((b, rest))
  {
    var s, n := b + rest, |b|;
    assert s[4..8] == b[4..8] && s[n - 4..n] == b[n - 4..] && s[..n] == b && s[n..] == rest;
  }

  /** The parts of a written block after its head. */
  lemma {:induction false} BodyParts(p: Packet)
    ensures var b, total := Block(p), HookEpbSize(|p.data|, p.id != 0, |p.comment|);
      b[28..28 + |p.data|] == p.data && b[HEADER + Padded(|p.data|)..total - 4] == Options(p) && b[total - 4..] == Le(total, 4)
  {
    var total := HookEpbSize(|p.data|, p.id != 0, |p.comment|);
    var h, pad, o := Head(p, total), Zeros(Padded(|p.data|) - |p.data|), Options(p);
    PartsApart(h, p.data, pad, o, Le(total, 4));
  }

  lemma {:induction false} PartsApart(h: Bytes, data: Bytes, pad: Bytes, o: Bytes, end: Bytes)
    ensures var s, n := h + data + pad + o + end, |h| + |data| + |pad|;
      s[|h|..|h| + |data|] == data && s[n..n + |o|] == o && s[n + |o|..] == end
  {
    var s := h + data + pad + o + end;
    Slice(h, data, pad + o + end);
    assert s == h + data + (pad + o + end);
    Slice(h + data + pad, o, end);
  }

  lemma {:induction false} Slice(a: Bytes, b: Bytes, c: Bytes)
    ensures (a + b + c)[|a|..|a| + |b|] == b
  {
  }

  lemma {:induction false} PaddingIsZero(p: Packet)
    ensures forall k | 28 + |p.data| <= k < 28 + (|p.data| + 3) / 4 * 4 :: k < |Block(p)| && Block(p)[k] == 0
  {
    var total := HookEpbSize(|p.data|, p.id != 0, |p.comment|);
    var front, pad, back := Head(p, total) + p.data, Zeros(Padded(|p.data|) - |p.data|), Options(p) + Le(total, 4);
    assert Block(p) == front + pad + back;
    forall k | 28 + |p.data| <= k < 28 + (|p.data| + 3) / 4 * 4
      ensures k < |Block(p)| && Block(p)[k] == 0
    {
      assert (front + pad + back)[k] == pad[k - |front|];
    }
  }

  lemma {:induction false} BlockFields(p: Packet)
    requires PacketOk(p)
    ensures var b, total := Block(p), HookEpbSize(|p.data|, p.id != 0, |p.comment|);
      Of(b[0..4]) == EPB && Of(b[4..8]) == total && Of(b[8..12]) == p.iface && Of(b[12..16]) == p.ts / U32 &&
      Of(b[16..20]) == p.ts % U32 && Of(b[20..24]) == |p.data| && Of(b[24..28]) == OrigLength(p)
  {
    var total := HookEpbSize(|p.data|, p.id != 0, |p.comment|);
    var body := p.data + Zeros(Padded(|p.data|) - |p.data|) + Options(p) + Le(total, 4);
    assert Block(p) == Head(p, total) + body;
    HeadFields(p, total, body);
  }

  /** Reading a stream that starts with a written block returns that block, and parsing it returns the same
      interface, timestamp, lengths and bytes, with the id exactly when it is nonzero, and the comment. */
  lemma {:induction false} BlockRoundTrip(p: Packet, rest: Bytes, hooks: nat)
    requires PacketOk(p) && p.iface < hooks
    ensures ReadBlock(Block(p) + rest) == Good((Block(p), rest))
    ensures var b := Block(p);
      Fields(b, hooks) && Of(b[8..12]) == p.iface && Of(b[12..16]) * U32 + Of(b[16..20]) == p.ts && Of(b[20..24]) == |p.data| &&
      Of(b[0..4]) == 6 && (forall k | 28 + |p.data| <= k < 28 + (|p.data| + 3) / 4 * 4 :: k < |b| && b[k] == 0) &&
      Of(b[24..28]) == (if |p.data| <= p.origLen then p.origLen else |p.data|) && b[28..28 + |p.data|] == p.data && OptionBytes(b) == Options(p) &&
      Shape(OptionBytes(b), p.id != 0) && !Shape(OptionBytes(b), p.id == 0) && OptionsHold(p, OptionBytes(b))
  {
    BlockFields(p);
    BodyParts(p);
    PaddingIsZero(p);
    Widths();
    OfLe(|Block(p)|, 4);
    ReadFramed(Block(p), rest);
    OptionsRoundTrip(p);
  }
}
