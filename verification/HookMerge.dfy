/** The merge of hook shards: whole blocks are read, checked and interleaved by time, and every block of every shard
    must agree on carrying a packet id. */
module HookMerge {
  import opened Words
  import opened HookBlock
  import Merge

  // ---------------------------------------------------------------- what a stream holds

  const S63: nat := 0x8000_0000_0000_0000

  /** The timestamp of a block in nanoseconds, read as a signed 64-bit number. */
  function Stamp(b: Bytes): int {
    if |b| < 20 then 0
    else
      var t := Of(b[12..16]) * U32 + Of(b[16..20]);
      if t < S63 then t else t - U64
  }

  predicate Accepts(b: Bytes, hooks: nat, hasId: bool) {
    Fields(b, hooks) && Shape(OptionBytes(b), hasId)
  }

  predicate Acceptable(b: Bytes, hooks: nat) {
    Accepts(b, hooks, true) || Accepts(b, hooks, false)
  }

  predicate HasId(b: Bytes) {
    |b| >= EpbSize(0) && |b| >= EpbSize(Of(b[20..24])) && IdAt(OptionBytes(b), 0)
  }

  lemma {:induction false} IdIsKnown(b: Bytes, hooks: nat, hasId: bool)
    requires Accepts(b, hooks, hasId)
    ensures HasId(b) == hasId
  {
    var o := OptionBytes(b);
    if !hasId && o != [] {
      assert EndAt(o, 0) || CommentAt(o, 0);
    }
  }

  /** The blocks of a stream up to the first that is refused, and whether one was. */
  datatype Decoded = Decoded(blocks: seq<Bytes>, broken: bool)

  function Decode(stream: Bytes, hooks: nat): Decoded
    decreases |stream|
  {
    match ReadBlock(stream)
    case Bad(why) => Decoded([], why != EndOfFile)
    case Good(r) =>
      if Acceptable(r.0, hooks) then var d := Decode(r.1, hooks); Decoded([r.0] + d.blocks, d.broken) else Decoded([], true)
  }

  function DecodeAll(streams: seq<Bytes>, hooks: nat): (ds: seq<Decoded>)
    ensures |ds| == |streams|
  {
    seq(|streams|, i requires 0 <= i < |streams| => Decode(streams[i], hooks))
  }

  predicate AllClean(ds: seq<Decoded>) {
    forall i | 0 <= i < |ds| :: !ds[i].broken
  }

  predicate IsBlock(ds: seq<Decoded>, i: int, k: int) {
    0 <= i < |ds| && 0 <= k < |ds[i].blocks|
  }

  /** Whether all blocks of all shards agree on carrying an id. */
  ghost predicate AllAgree(ds: seq<Decoded>) {
    forall i, k, j, l | IsBlock(ds, i, k) && IsBlock(ds, j, l) :: HasId(ds[i].blocks[k]) == HasId(ds[j].blocks[l])
  }

  // ---------------------------------------------------------------- the readers

  datatype Latch = Unset | Set(value: bool)

  function ItemOf(b: Bytes, i: nat): Merge.Item {
    Merge.Item(Stamp(b), 0, 0, b, i)
  }

  /** One reader per shard, and what the blocks read so far say of ids. */
  class Readers {
    const hooks: nat
    var left: seq<Bytes>
    var runIds: Latch

    constructor (streams: seq<Bytes>, hooks: nat)
      ensures left == streams && this.hooks == hooks && runIds == Unset
    {
      left, this.hooks, runIds := streams, hooks, Unset;
    }

    /** The next block of shard `i`. */
    method Next(i: nat) returns (r: Merge.Read)
      requires i < |left|
      modifies this
      ensures |left| == |old(left)| && left == old(left)[i := left[i]]
      ensures var d := Decode(old(left)[i], hooks);
        match r
        case Got(it) =>
          d.blocks != [] && it == ItemOf(d.blocks[0], i) && Decode(left[i], hooks) == Decoded(d.blocks[1..], d.broken) &&
          runIds == Set(HasId(d.blocks[0])) && (old(runIds) == Unset || old(runIds) == runIds)
        case Eof => d == Decoded([], false) && left == old(left) && runIds == old(runIds)
        case Failed => if d.blocks == [] then d.broken else old(runIds) == Set(!HasId(d.blocks[0]))
    {
      var b := ReadBlock(left[i]);
      if b.Bad? {
        return if b.why == EndOfFile then Merge.Eof else Merge.Failed;
      }
      left := left[i := b.value.1];
      var block := b.value.0;
      var p := ParseBlock(block, hooks);
      if p.Bad? {
        return Merge.Failed;
      }
      IdIsKnown(block, hooks, p.value.hasId);
      assert [block][0] == block;
      if runIds.Unset? {
        runIds := Set(p.value.hasId);
      } else if runIds.value != p.value.hasId {
        return Merge.Failed;
      }
      return Merge.Got(ItemOf(block, i));
    }
  }

  // ---------------------------------------------------------------- the state of the merge

  /** Shard `d` with `n` of its blocks read has `left` to read. */
  ghost predicate LeftOf(d: Decoded, left: Bytes, hooks: nat, n: nat) {
    n <= |d.blocks| && Decode(left, hooks) == Decoded(d.blocks[n..], d.broken)
  }

  ghost predicate WasRead(ds: seq<Decoded>, read: seq<nat>, i: int, k: int) {
    IsBlock(ds, i, k) && |read| == |ds| && k < read[i]
  }

  /** The latch says what every block read so far says, and is set by one of them. */
  ghost predicate Latched(ds: seq<Decoded>, read: seq<nat>, ids: Latch) {
    (forall i, k | WasRead(ds, read, i, k) :: ids == Set(HasId(ds[i].blocks[k]))) &&
    (ids.Set? ==> exists i, k :: WasRead(ds, read, i, k))
  }

  ghost predicate Reading(ds: seq<Decoded>, left: seq<Bytes>, hooks: nat, read: seq<nat>, ids: Latch) {
    |left| == |read| == |ds| && (forall i | 0 <= i < |ds| :: LeftOf(ds[i], left[i], hooks, read[i])) && Latched(ds, read, ids)
  }

  lemma {:induction false} LatchMoves(ds: seq<Decoded>, read: seq<nat>, i: nat, ids: Latch, ids': Latch)
    requires |read| == |ds| && i < |ds| && read[i] < |ds[i].blocks| && Latched(ds, read, ids)
    requires ids' == Set(HasId(ds[i].blocks[read[i]])) && (ids == Unset || ids == ids')
    ensures Latched(ds, read[i := read[i] + 1], ids')
  {
    var read' := read[i := read[i] + 1];
    assert WasRead(ds, read', i, read[i]);
    forall j, k | WasRead(ds, read', j, k)
      ensures ids' == Set(HasId(ds[j].blocks[k]))
    {
      if j != i || k < read[i] {
        assert WasRead(ds, read, j, k);
      }
    }
  }

  lemma {:induction false} ReadMoves(ds: seq<Decoded>, left: seq<Bytes>, hooks: nat, read: seq<nat>, ids: Latch, i: nat, left': seq<Bytes>, ids': Latch)
    requires Reading(ds, left, hooks, read, ids) && i < |ds| && |left'| == |left| && left' == left[i := left'[i]]
    requires var d := Decode(left[i], hooks);
      d.blocks != [] && Decode(left'[i], hooks) == Decoded(d.blocks[1..], d.broken) &&
      ids' == Set(HasId(d.blocks[0])) && (ids == Unset || ids == ids')
    ensures read[i] < |ds[i].blocks| && Decode(left[i], hooks).blocks[0] == ds[i].blocks[read[i]]
    ensures Reading(ds, left', hooks, read[i := read[i] + 1], ids')
  {
    assert LeftOf(ds[i], left[i], hooks, read[i]);
    assert ds[i].blocks[read[i]..][1..] == ds[i].blocks[read[i] + 1..];
    LatchMoves(ds, read, i, ids, ids');
    forall j | 0 <= j < |ds|
      ensures LeftOf(ds[j], left'[j], hooks, read[i := read[i] + 1][j])
    {
      if j != i {
        assert LeftOf(ds[j], left[j], hooks, read[j]);
      }
    }
  }

  /** What the next read of shard `i` meets when it fails: a refused block, or one that disagrees with one read. */
  lemma {:induction false} FailureIsReal(ds: seq<Decoded>, left: seq<Bytes>, hooks: nat, read: seq<nat>, ids: Latch, i: nat)
    requires Reading(ds, left, hooks, read, ids) && i < |ds|
    requires var d := Decode(left[i], hooks); if d.blocks == [] then d.broken else ids == Set(!HasId(d.blocks[0]))
    ensures !(AllClean(ds) && AllAgree(ds))
  {
    assert LeftOf(ds[i], left[i], hooks, read[i]);
    if read[i] < |ds[i].blocks| {
      var j, k :| WasRead(ds, read, j, k);
      assert IsBlock(ds, j, k) && IsBlock(ds, i, read[i]);
      assert HasId(ds[j].blocks[k]) != HasId(ds[i].blocks[read[i]]);
    }
  }

  // ---------------------------------------------------------------- as shards of the merge

  function PacketOf(b: Bytes): Merge.Packet {
    Merge.Packet(Stamp(b), [], 0, 0, b)
  }

  function ShardOf(d: Decoded): (s: Merge.Shard)
    ensures |s.packets| == |d.blocks|
  {
    Merge.Shard(seq(|d.blocks|, k requires 0 <= k < |d.blocks| => PacketOf(d.blocks[k])), d.broken)
  }

  function Shards(ds: seq<Decoded>): (ss: seq<Merge.Shard>)
    ensures |ss| == |ds|
  {
    seq(|ds|, i requires 0 <= i < |ds| => ShardOf(ds[i]))
  }

  /** The blocks written, one after the other. */
  function Concat(out: seq<Merge.Packet>): Bytes {
    if out == [] then [] else Concat(out[..|out| - 1]) + out[|out| - 1].block
  }

  function Empty(n: nat): (bufs: seq<Bytes>)
    ensures |bufs| == n
  {
    seq(n, _ => [])
  }

  /** The merge after some writes: the readers and the heap stand where the blocks written say. */
  ghost predicate Between(ds: seq<Decoded>, picks: seq<nat>, out: seq<Merge.Packet>, read: seq<nat>, heap: seq<Merge.Item>, n: nat) {
    Merge.Merging(Shards(ds), picks, out, read, Empty(|ds|), heap, n)
  }

  // ---------------------------------------------------------------- the merge

  /** Fills the heap with each shard's first block. */
  method Open(readers: Readers, ghost ds: seq<Decoded>) returns (ok: bool, heap: seq<Merge.Item>, ghost read: seq<nat>)
    requires readers.runIds == Unset && ds == DecodeAll(readers.left, readers.hooks)
    modifies readers
    ensures ok ==> Reading(ds, readers.left, readers.hooks, read, readers.runIds) && Between(ds, [], [], read, heap, |ds|)
    ensures !ok ==> !(AllClean(ds) && AllAgree(ds))
  {
    heap, ok := [], true;
    read := seq(|ds|, _ => 0);
    for i := 0 to |readers.left|
      invariant |readers.left| == |ds| && Reading(ds, readers.left, readers.hooks, read, readers.runIds) && Between(ds, [], [], read, heap, i)
    {
      ghost var read0, heap0, left0, ids0 := read, heap, readers.left, readers.runIds;
      var r := readers.Next(i);
      if r.Failed? {
        FailureIsReal(ds, left0, readers.hooks, read0, ids0, i);
        return false, heap, read;
      }
      if r.Got? {
        ReadMoves(ds, left0, readers.hooks, read0, ids0, i, readers.left, readers.runIds);
        heap, read := heap + [r.item], read[i := read[i] + 1];
      }
      Opens(ds, left0[i], readers.hooks, read0, heap0, i, read, heap);
    }
  }

  lemma {:induction false} Opens(ds: seq<Decoded>, left: Bytes, hooks: nat, read: seq<nat>, heap: seq<Merge.Item>, i: nat, read': seq<nat>, heap': seq<Merge.Item>)
    requires Between(ds, [], [], read, heap, i) && i < |ds| && LeftOf(ds[i], left, hooks, read[i])
    requires var d := Decode(left, hooks);
      if d.blocks != [] then read' == read[i := read[i] + 1] && heap' == heap + [ItemOf(d.blocks[0], i)]
      else !d.broken && read' == read && heap' == heap
    ensures Between(ds, [], [], read', heap', i + 1)
  {
    var shards := Shards(ds);
    assert read[i] == 0;
    assert Empty(|ds|)[i := []] == Empty(|ds|);
    if 0 < |shards[i].packets| {
      assert shards[i].packets[0] == PacketOf(ds[i].blocks[0]);
    }
    Merge.Opened(shards, [], [], read, Empty(|ds|), heap, i, read', Empty(|ds|), heap');
  }

  /** Merges hook shards, whatever bytes they hold.  Refused exactly when a shard holds a block that is refused or is
      cut short, or two blocks disagree on carrying an id; otherwise the output is every block of every shard, each
      shard's order kept, in time order whenever each shard is. */
  method MergeHooks(streams: seq<Bytes>, hooks: nat) returns (ok: bool, dest: Bytes, ghost out: seq<Merge.Packet>, ghost picks: seq<nat>)
    ensures var ds := DecodeAll(streams, hooks);
      (ok <==> AllClean(ds) && AllAgree(ds)) &&
      (ok ==> Merge.Interleaves(Shards(ds), picks, out) && dest == Concat(out)) &&
      (ok && Merge.AllSorted(Shards(ds)) ==> Merge.Sorted(out))
  {
    var readers := new Readers(streams, hooks);
    ghost var ds := DecodeAll(streams, hooks);
    dest, out, picks := [], [], [];
    var heap;
    ghost var read;
    ok, heap, read := Open(readers, ds);
    if !ok {
      return;
    }
    while heap != []
      invariant readers.hooks == hooks && Reading(ds, readers.left, hooks, read, readers.runIds)
      invariant Between(ds, picks, out, read, heap, |ds|) && dest == Concat(out)
      invariant Merge.AllSorted(Shards(ds)) ==> Merge.Timely(out, heap)
      decreases Merge.Left(Shards(ds), read, heap)
    {
      var block;
      ghost var p, i;
      ok, block, p, i, heap, read := WriteOne(readers, heap, ds, picks, out, read);
      if !ok {
        return;
      }
      ConcatMore(out, p);
      dest := dest + block;
      out, picks := out + [p], picks + [i];
    }
    Merge.Drained(Shards(ds), picks, out, read, Empty(|ds|));
    AllRead(ds, readers.left, hooks, picks, out, read, readers.runIds);
    ok := true;
  }

  lemma {:induction false} ConcatMore(out: seq<Merge.Packet>, p: Merge.Packet)
    ensures Concat(out + [p]) == Concat(out) + p.block
  {
    assert (out + [p])[..|out|] == out;
  }

  /** Writes the oldest block, then reads its shard's next one. */
  method WriteOne(readers: Readers, heap: seq<Merge.Item>, ghost ds: seq<Decoded>, ghost picks: seq<nat>, ghost out: seq<Merge.Packet>, ghost read: seq<nat>)
    returns (ok: bool, block: Bytes, ghost p: Merge.Packet, ghost i: nat, heap': seq<Merge.Item>, ghost read': seq<nat>)
    requires heap != [] && Reading(ds, readers.left, readers.hooks, read, readers.runIds) && Between(ds, picks, out, read, heap, |ds|)
    modifies readers
    ensures ok ==> Reading(ds, readers.left, readers.hooks, read', readers.runIds) && Between(ds, picks + [i], out + [p], read', heap', |ds|)
    ensures ok ==> block == p.block
    ensures ok && Merge.AllSorted(Shards(ds)) && Merge.Timely(out, heap) ==> Merge.Timely(out + [p], heap')
    ensures ok ==> Merge.Left(Shards(ds), read', heap') < Merge.Left(Shards(ds), read, heap) && 0 <= Merge.Left(Shards(ds), read, heap)
    ensures !ok ==> !(AllClean(ds) && AllAgree(ds))
  {
    var at, it, rest := Merge.PopOldest(heap);
    Merge.Popped(Shards(ds), picks, out, read, Empty(|ds|), heap, at);
    i := it.idx;
    ghost var left0, ids0 := readers.left, readers.runIds;
    block := it.block;
    p := Shards(ds)[i].packets[read[i] - 1];
    var r := readers.Next(it.idx);
    ok, heap', read' := true, rest, read;
    if r.Failed? {
      FailureIsReal(ds, left0, readers.hooks, read, ids0, i);
      return false, block, p, i, rest, read;
    }
    if r.Got? {
      ReadMoves(ds, left0, readers.hooks, read, ids0, i, readers.left, readers.runIds);
      heap', read' := rest + [r.item], read[i := read[i] + 1];
    }
    Advances(ds, left0[i], readers.hooks, picks, out, read, heap, at, read', heap');
  }

  lemma {:induction false} Advances(ds: seq<Decoded>, left: Bytes, hooks: nat, picks: seq<nat>, out: seq<Merge.Packet>, read: seq<nat>,
                                    heap: seq<Merge.Item>, at: nat, read': seq<nat>, heap': seq<Merge.Item>)
    requires Between(ds, picks, out, read, heap, |ds|) && at < |heap| && heap[at].idx < |ds|
    requires forall k | 0 <= k < |heap| :: heap[at].ts <= heap[k].ts
    requires var i, d, rest := heap[at].idx, Decode(left, hooks), heap[..at] + heap[at + 1..];
      LeftOf(ds[i], left, hooks, read[i]) &&
      if d.blocks != [] then read' == read[i := read[i] + 1] && heap' == rest + [ItemOf(d.blocks[0], i)]
      else !d.broken && read' == read && heap' == rest
    ensures var i := heap[at].idx; var shards := Shards(ds);
      1 <= read[i] <= |shards[i].packets| &&
      var p := shards[i].packets[read[i] - 1];
      p.block == heap[at].block && Between(ds, picks + [i], out + [p], read', heap', |ds|) &&
      (Merge.AllSorted(shards) && Merge.Timely(out, heap) ==> Merge.Timely(out + [p], heap')) &&
      Merge.Left(shards, read', heap') < Merge.Left(shards, read, heap) && 0 <= Merge.Left(shards, read, heap)
  {
    var i, shards, bufs := heap[at].idx, Shards(ds), Empty(|ds|);
    Merge.Popped(shards, picks, out, read, bufs, heap, at);
    var n := |Merge.Project(out, picks, i)|;
    assert bufs[i := []] == bufs;
    if read[i] < |shards[i].packets| {
      assert shards[i].packets[n + 1] == PacketOf(ds[i].blocks[read[i]]);
    }
    Merge.Advanced(shards, picks, out, read, bufs, heap, at, read', bufs, heap');
    if Merge.AllSorted(shards) && Merge.Timely(out, heap) {
      Merge.StaysTimely(shards, picks, out, heap, at, i, n, heap');
    }
    forall j | 0 <= j < |shards|
      ensures read[j] <= |shards[j].packets|
    {
      Merge.ReadBound(shards, picks, out, read, bufs, heap, |shards|, j);
    }
    Merge.LeftDrops(shards, read, read', heap, heap', i);
  }

  /** Once the heap is empty every block was read, so the latch speaks for all of them. */
  lemma {:induction false} AllRead(ds: seq<Decoded>, left: seq<Bytes>, hooks: nat, picks: seq<nat>, out: seq<Merge.Packet>, read: seq<nat>, ids: Latch)
    requires Reading(ds, left, hooks, read, ids) && Between(ds, picks, out, read, [], |ds|)
    ensures AllClean(ds) && AllAgree(ds)
  {
    forall i | 0 <= i < |ds|
      ensures !ds[i].broken && read[i] == |ds[i].blocks|
    {
      assert Merge.ShardOk(Shards(ds)[i], i, |Merge.Project(out, picks, i)|, read[i], Empty(|ds|)[i], []);
    }
    forall i, k | IsBlock(ds, i, k)
      ensures ids == Set(HasId(ds[i].blocks[k]))
    {
      assert WasRead(ds, read, i, k);
    }
  }

  // ---------------------------------------------------------------- the merged file

  function BlocksOf(out: seq<Merge.Packet>): (bs: seq<Bytes>)
    ensures |bs| == |out|
  {
    seq(|out|, k requires 0 <= k < |out| => out[k].block)
  }

  /** A block the reader accepts reads back whole wherever it stands. */
  ghost predicate Portable(b: Bytes, hooks: nat) {
    Acceptable(b, hooks) && forall rest: Bytes :: ReadBlock(b + rest) == Good((b, rest))
  }

  lemma {:induction false} DecodedArePortable(stream: Bytes, hooks: nat)
    ensures forall k | 0 <= k < |Decode(stream, hooks).blocks| :: Portable(Decode(stream, hooks).blocks[k], hooks)
    decreases |stream|
  {
    var r := ReadBlock(stream);
    if r.Good? && Acceptable(r.value.0, hooks) {
      DecodedArePortable(r.value.1, hooks);
      FramedIsPortable(stream, hooks);
    }
  }

  lemma {:induction false} FramedIsPortable(stream: Bytes, hooks: nat)
    requires ReadBlock(stream).Good? && Acceptable(ReadBlock(stream).value.0, hooks)
    ensures Portable(ReadBlock(stream).value.0, hooks)
  {
    var b := ReadBlock(stream).value.0;
    var n := |b|;
    assert b[4..8] == stream[4..8] && b[n - 4..] == stream[n - 4..n];
    forall rest: Bytes
      ensures ReadBlock(b + rest) == Good((b, rest))
    {
      ReadFramed(b, rest);
    }
  }

  lemma {:induction false} ConcatReads(bs: seq<Bytes>, hooks: nat)
    requires forall k | 0 <= k < |bs| :: Portable(bs[k], hooks)
    ensures Decode(Flat(bs), hooks) == Decoded(bs, false)
    decreases |bs|
  {
    if bs != [] {
      ConcatReads(bs[1..], hooks);
      DecodeFirst(bs[0], Flat(bs[1..]), hooks);
      assert [bs[0]] + bs[1..] == bs;
    }
  }

  lemma {:induction false} DecodeFirst(b: Bytes, rest: Bytes, hooks: nat)
    requires Portable(b, hooks)
    ensures Decode(b + rest, hooks) == Decoded([b] + Decode(rest, hooks).blocks, Decode(rest, hooks).broken)
  {
    assert ReadBlock(b + rest) == Good((b, rest));
  }

  function Flat(bs: seq<Bytes>): Bytes {
    if bs == [] then [] else bs[0] + Flat(bs[1..])
  }

  lemma {:induction false} FlatMore(bs: seq<Bytes>, b: Bytes)
    ensures Flat(bs + [b]) == Flat(bs) + b
    decreases |bs|
  {
    if bs != [] {
      FlatMore(bs[1..], b);
      assert (bs + [b])[1..] == bs[1..] + [b];
    } else {
      assert Flat([b]) == b + Flat([]);
    }
  }

  lemma {:induction false} ConcatIsFlat(out: seq<Merge.Packet>)
    ensures Concat(out) == Flat(BlocksOf(out))
    decreases |out|
  {
    if out != [] {
      var n := |out| - 1;
      ConcatIsFlat(out[..n]);
      FlatMore(BlocksOf(out[..n]), out[n].block);
      assert BlocksOf(out) == BlocksOf(out[..n]) + [out[n].block];
    }
  }

  /** Every packet of an interleaving is one of its shard's. */
  lemma {:induction false} PickedFromShard(out: seq<Merge.Packet>, picks: seq<nat>, k: nat)
    requires |out| == |picks| && k < |out|
    ensures out[k] in Merge.Project(out, picks, picks[k])
    decreases |out|
  {
    var n := |out| - 1;
    if k < n {
      PickedFromShard(out[..n], picks[..n], k);
    }
  }

  /** The merged file is itself a shard file: read back, it is the blocks in the order they were written. */
  lemma {:induction false} MergedReadsBack(streams: seq<Bytes>, hooks: nat, picks: seq<nat>, out: seq<Merge.Packet>)
    requires Merge.Interleaves(Shards(DecodeAll(streams, hooks)), picks, out)
    ensures Decode(Concat(out), hooks) == Decoded(BlocksOf(out), false)
  {
    var ds, bs := DecodeAll(streams, hooks), BlocksOf(out);
    forall k | 0 <= k < |bs|
      ensures Portable(bs[k], hooks)
    {
      var i := picks[k];
      PickedFromShard(out, picks, k);
      assert out[k] in Shards(ds)[i].packets;
      var l :| 0 <= l < |ds[i].blocks| && out[k] == PacketOf(ds[i].blocks[l]);
      DecodedArePortable(streams[i], hooks);
    }
    ConcatIsFlat(out);
    ConcatReads(bs, hooks);
  }

  // ---------------------------------------------------------------- shards the writer wrote

  predicate AllOk(ps: seq<Packet>, hooks: nat) {
    forall i | 0 <= i < |ps| :: PacketOk(ps[i]) && ps[i].iface < hooks
  }

  function WrittenBlocks(ps: seq<Packet>): (bs: seq<Bytes>)
    ensures |bs| == |ps|
  {
    seq(|ps|, i requires 0 <= i < |ps| => Block(ps[i]))
  }

  lemma {:induction false} WrittenBlock(p: Packet, rest: Bytes, hooks: nat)
    requires PacketOk(p) && p.iface < hooks
    ensures ReadBlock(Block(p) + rest) == Good((Block(p), rest)) && Acceptable(Block(p), hooks) && HasId(Block(p)) == (p.id != 0)
  {
    BlockRoundTrip(p, rest, hooks);
    IdIsKnown(Block(p), hooks, p.id != 0);
  }

  /** A shard file reads back as the blocks its writer wrote. */
  lemma {:induction false} WrittenReadsBack(ps: seq<Packet>, hooks: nat)
    requires AllOk(ps, hooks)
    ensures Decode(Flat(WrittenBlocks(ps)), hooks) == Decoded(WrittenBlocks(ps), false)
  {
    forall i | 0 <= i < |ps|
      ensures Portable(Block(ps[i]), hooks)
    {
      WrittenIsPortable(ps[i], hooks);
    }
    ConcatReads(WrittenBlocks(ps), hooks);
  }

  lemma {:induction false} WrittenIsPortable(p: Packet, hooks: nat)
    requires PacketOk(p) && p.iface < hooks
    ensures Portable(Block(p), hooks)
  {
    WrittenBlock(p, [], hooks);
    forall rest: Bytes
      ensures ReadBlock(Block(p) + rest) == Good((Block(p), rest))
    {
      WrittenBlock(p, rest, hooks);
    }
  }

  function Streams(shards: seq<seq<Packet>>): (ss: seq<Bytes>)
    ensures |ss| == |shards|
  {
    seq(|shards|, i requires 0 <= i < |shards| => Flat(WrittenBlocks(shards[i])))
  }

  predicate IsPacket(shards: seq<seq<Packet>>, i: int, k: int) {
    0 <= i < |shards| && 0 <= k < |shards[i]|
  }

  /** Shards the writer wrote are merged exactly when all packets of all shards have an id or none has. */
  lemma {:induction false} WrittenShardsMerge(shards: seq<seq<Packet>>, hooks: nat)
    requires forall i | 0 <= i < |shards| :: AllOk(shards[i], hooks)
    ensures var ds := DecodeAll(Streams(shards), hooks);
      (forall i | 0 <= i < |shards| :: ds[i] == Decoded(WrittenBlocks(shards[i]), false)) && AllClean(ds) &&
      (AllAgree(ds) <==> forall i, k, j, l | IsPacket(shards, i, k) && IsPacket(shards, j, l) :: (shards[i][k].id != 0) == (shards[j][l].id != 0))
  {
    var ds := DecodeAll(Streams(shards), hooks);
    forall i | 0 <= i < |shards|
      ensures ds[i] == Decoded(WrittenBlocks(shards[i]), false)
    {
      WrittenReadsBack(shards[i], hooks);
    }
    forall i, k | IsPacket(shards, i, k)
      ensures IsBlock(ds, i, k) && HasId(ds[i].blocks[k]) == (shards[i][k].id != 0)
    {
      WrittenBlock(shards[i][k], [], hooks);
    }
    assert forall i, k :: IsBlock(ds, i, k) <==> IsPacket(shards, i, k);
  }

  /** The signed 64-bit number congruent to `t`. */
  predicate SignedOf(n: int, t: nat) {
    -0x8000_0000_0000_0000 <= n < 0x8000_0000_0000_0000 && (n == t || n == t - 0x1_0000_0000_0000_0000)
  }

  /** Blocks are ordered by the time they carry, as a signed 64-bit number. */
  lemma {:induction false} StampIsTime(b: Bytes)
    requires |b| >= 20
    ensures SignedOf(Stamp(b), Of(b[12..16]) * 0x1_0000_0000 + Of(b[16..20]))
  {
    FourBytes(b[12..16]);
    FourBytes(b[16..20]);
  }

  /** A written block is ordered by its packet's time. */
  lemma {:induction false} StampOfWritten(p: Packet)
    requires PacketOk(p)
    ensures SignedOf(Stamp(Block(p)), p.ts)
  {
    BlockFields(p);
  }

  lemma {:induction false} FourBytes(s: Bytes)
    requires |s| == 4
    ensures Of(s) < 0x1_0000_0000
  {
    assert s[1..][1..] == s[2..] && s[2..][1..] == s[3..] && s[3..][1..] == [];
    assert Of(s[3..]) == s[3] && Of(s[2..]) == s[2] + 256 * Of(s[3..]);
    assert Of(s[1..]) == s[1] + 256 * Of(s[2..]);
  }
}
