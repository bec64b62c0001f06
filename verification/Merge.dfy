/** The k-way merge of per-CPU shard files into one capture: a heap with at most one item per shard, whose data
    lives in that shard's one reused buffer. */
module Merge {
  import opened Words

  /** A packet of a shard; a hook shard's is kept as its whole block instead. */
  datatype Packet = Packet(ts: int, data: seq<Byte>, origLen: nat, iface: nat, block: seq<Byte>)

  /** A shard file: its packets, and whether reading past them fails rather than ends. */
  datatype Shard = Shard(packets: seq<Packet>, broken: bool)

  /** A heap entry; the packet's bytes are whatever buffer `idx` holds when it is written. */
  datatype Item = Item(ts: int, origLen: nat, iface: nat, block: seq<Byte>, idx: nat)

  datatype Read = Got(item: Item) | Eof | Failed

  // ---------------------------------------------------------------- what a merge is

  /** The packets that came from shard `i`, in order. */
  function Project(out: seq<Packet>, picks: seq<nat>, i: nat): seq<Packet>
    requires |out| == |picks|
  {
    if out == [] then []
    else
      var n := |out| - 1;
      Project(out[..n], picks[..n], i) + (if picks[n] == i then [out[n]] else [])
  }

  lemma {:induction false} ProjectAppend(out: seq<Packet>, picks: seq<nat>, p: Packet, k: nat, i: nat)
    requires |out| == |picks|
    ensures Project(out + [p], picks + [k], i) == Project(out, picks, i) + (if k == i then [p] else [])
  {
    assert (out + [p])[..|out|] == out && (picks + [k])[..|picks|] == picks;
  }

  ghost predicate Sorted(s: seq<Packet>) {
    forall a, b | 0 <= a < b < |s| :: s[a].ts <= s[b].ts
  }

  /** Each packet exactly once, each shard's order kept. */
  ghost predicate Interleaves(shards: seq<Shard>, picks: seq<nat>, out: seq<Packet>) {
    |out| == |picks| && (forall k | 0 <= k < |picks| :: picks[k] < |shards|) &&
    forall i | 0 <= i < |shards| :: Project(out, picks, i) == shards[i].packets
  }

  ghost predicate AllSorted(shards: seq<Shard>) {
    forall i | 0 <= i < |shards| :: Sorted(shards[i].packets)
  }

  // ---------------------------------------------------------------- the state of the merge

  /** Shard `i` has `n` packets written; the next one, if any, waits in the heap with its bytes in the buffer. */
  ghost predicate ShardOk(shard: Shard, i: nat, n: nat, read: nat, buf: seq<Byte>, heap: seq<Item>) {
    n <= |shard.packets| &&
    (forall k | 0 <= k < |heap| && heap[k].idx == i ::
      n < |shard.packets| && read == n + 1 && var p := shard.packets[n]; heap[k] == Item(p.ts, p.origLen, p.iface, p.block, i) && buf == p.data) &&
    ((forall k | 0 <= k < |heap| :: heap[k].idx != i) ==> n == |shard.packets| && read == n && !shard.broken)
  }

  ghost predicate OnePerShard(heap: seq<Item>, n: nat) {
    (forall k | 0 <= k < |heap| :: heap[k].idx < n) && forall a, b | 0 <= a < b < |heap| :: heap[a].idx != heap[b].idx
  }

  /** Every shard below `n` is in order; the others have not been read. */
  ghost predicate Merging(shards: seq<Shard>, picks: seq<nat>, out: seq<Packet>, read: seq<nat>, bufs: seq<seq<Byte>>, heap: seq<Item>, n: nat) {
    |read| == |bufs| == |shards| && n <= |shards| && |out| == |picks| && OnePerShard(heap, n) &&
    (forall k | 0 <= k < |picks| :: picks[k] < |shards|) &&
    (forall i | 0 <= i < |shards| :: Written(shards[i], picks, out, i)) &&
    (forall i | 0 <= i < n :: ShardOk(shards[i], i, |Project(out, picks, i)|, read[i], bufs[i], heap)) &&
    (forall i | n <= i < |shards| :: read[i] == 0 && Project(out, picks, i) == [])
  }

  ghost predicate Written(shard: Shard, picks: seq<nat>, out: seq<Packet>, i: nat)
    requires |out| == |picks|
  {
    |Project(out, picks, i)| <= |shard.packets| && Project(out, picks, i) == shard.packets[..|Project(out, picks, i)|]
  }

  /** Nothing waiting in the heap is older than anything written. */
  ghost predicate Timely(out: seq<Packet>, heap: seq<Item>) {
    Sorted(out) && forall a, k | 0 <= a < |out| && 0 <= k < |heap| :: out[a].ts <= heap[k].ts
  }

  function Unread(shards: seq<Shard>, read: seq<nat>): int
    requires |read| == |shards|
  {
    if shards == [] then 0
    else
      var n := |shards| - 1;
      Unread(shards[..n], read[..n]) + |shards[n].packets| - read[n]
  }

  lemma {:induction false} UnreadDrops(shards: seq<Shard>, read: seq<nat>, i: nat, r: nat)
    requires |read| == |shards| && i < |shards|
    ensures Unread(shards, read[i := r]) == Unread(shards, read) + read[i] - r
    decreases |shards|
  {
    var n := |shards| - 1;
    if i < n {
      UnreadDrops(shards[..n], read[..n], i, r);
      assert read[i := r][..n] == read[..n][i := r];
    } else {
      assert read[i := r][..n] == read[..n];
    }
  }

  lemma {:induction false} UnreadCounts(shards: seq<Shard>, read: seq<nat>)
    requires |read| == |shards| && forall i | 0 <= i < |shards| :: read[i] <= |shards[i].packets|
    ensures Unread(shards, read) >= 0
    decreases |shards|
  {
    if shards != [] {
      UnreadCounts(shards[..|shards| - 1], read[..|read| - 1]);
    }
  }

  // ---------------------------------------------------------------- heap and readers

  /** Some oldest item, and the rest: the contract of the heap. */
  method PopOldest(heap: seq<Item>) returns (at: nat, it: Item, rest: seq<Item>)
    requires heap != []
    ensures at < |heap| && it == heap[at] && rest == heap[..at] + heap[at + 1..]
    ensures forall k | 0 <= k < |heap| :: it.ts <= heap[k].ts
  {
    at := 0;
    for k := 1 to |heap|
      invariant at < |heap| && forall j | 0 <= j < k :: heap[at].ts <= heap[j].ts
    {
      if heap[k].ts < heap[at].ts {
        at := k;
      }
    }
    it, rest := heap[at], heap[..at] + heap[at + 1..];
  }

  /** Reads the shard's next packet into its buffer, overwriting it. */
  method NextItem(shards: seq<Shard>, i: nat, read: array<nat>, bufs: array<seq<Byte>>) returns (r: Read)
    requires read.Length == bufs.Length == |shards| && i < |shards| && read[i] <= |shards[i].packets|
    modifies read, bufs
    ensures if old(read[i]) < |shards[i].packets| then
        var p := shards[i].packets[old(read[i])];
        r == Got(Item(p.ts, p.origLen, p.iface, p.block, i)) && read[..] == old(read[..])[i := old(read[i]) + 1] && bufs[..] == old(bufs[..])[i := p.data]
      else
        r == (if shards[i].broken then Failed else Eof) && read[..] == old(read[..]) && bufs[..] == old(bufs[..])
  {
    if read[i] < |shards[i].packets| {
      var p := shards[i].packets[read[i]];
      bufs[i] := p.data;
      read[i] := read[i] + 1;
      return Got(Item(p.ts, p.origLen, p.iface, p.block, i));
    }
    return if shards[i].broken then Failed else Eof;
  }

  // ---------------------------------------------------------------- one write

  /** Writing the popped item: its buffer still holds its packet. */
  lemma {:induction false} Popped(shards: seq<Shard>, picks: seq<nat>, out: seq<Packet>, read: seq<nat>, bufs: seq<seq<Byte>>, heap: seq<Item>, at: nat)
    requires Merging(shards, picks, out, read, bufs, heap, |shards|) && at < |heap|
    ensures var i := heap[at].idx; var n := |Project(out, picks, i)|;
      i < |shards| && n < |shards[i].packets| && read[i] == n + 1 &&
      Packet(heap[at].ts, bufs[i], heap[at].origLen, heap[at].iface, heap[at].block) == shards[i].packets[n]
  {
    assert ShardOk(shards[heap[at].idx], heap[at].idx, |Project(out, picks, heap[at].idx)|, read[heap[at].idx], bufs[heap[at].idx], heap);
  }

  /** After the write and the read of the shard's next packet (or its end), the merge is in order again. */
  lemma {:induction false} Advanced(shards: seq<Shard>, picks: seq<nat>, out: seq<Packet>, read: seq<nat>, bufs: seq<seq<Byte>>, heap: seq<Item>, at: nat,
                                    read': seq<nat>, bufs': seq<seq<Byte>>, heap': seq<Item>)
    requires Merging(shards, picks, out, read, bufs, heap, |shards|) && at < |heap|
    requires var i := heap[at].idx; var n := |Project(out, picks, i)|; var rest := heap[..at] + heap[at + 1..];
      i < |shards| && n < |shards[i].packets| && read[i] == n + 1 &&
      if n + 1 < |shards[i].packets| then
        var p := shards[i].packets[n + 1];
        read' == read[i := n + 2] && bufs' == bufs[i := p.data] && heap' == rest + [Item(p.ts, p.origLen, p.iface, p.block, i)]
      else read' == read && bufs' == bufs && heap' == rest && !shards[i].broken
    ensures var i := heap[at].idx; Merging(shards, picks + [i], out + [shards[i].packets[|Project(out, picks, i)|]], read', bufs', heap', |shards|)
  {
    var i := heap[at].idx;
    var n, rest := |Project(out, picks, i)|, heap[..at] + heap[at + 1..];
    var p := shards[i].packets[n];
    StillOnePerShard(heap, at, heap', i, |shards|);
    forall j | 0 <= j < |shards|
      ensures Written(shards[j], picks + [i], out + [p], j)
      ensures ShardOk(shards[j], j, |Project(out + [p], picks + [i], j)|, read'[j], bufs'[j], heap')
    {
      ProjectAppend(out, picks, p, i, j);
      assert Written(shards[j], picks, out, j);
      assert ShardOk(shards[j], j, |Project(out, picks, j)|, read[j], bufs[j], heap);
      OtherShard(shards, heap, at, heap', i, j);
    }
  }

  lemma {:induction false} StillOnePerShard(heap: seq<Item>, at: nat, heap': seq<Item>, i: nat, n: nat)
    requires OnePerShard(heap, n) && at < |heap| && heap[at].idx == i
    requires var rest := heap[..at] + heap[at + 1..]; heap' == rest || (|heap'| == |rest| + 1 && heap'[..|rest|] == rest && heap'[|rest|].idx == i)
    ensures OnePerShard(heap', n)
  {
    var rest := heap[..at] + heap[at + 1..];
    forall k | 0 <= k < |rest|
      ensures heap'[k] == heap[Kept(at, k)] && heap'[k].idx != i
    {
      assert heap'[k] == heap'[..|rest|][k] == rest[k];
    }
  }

  /** The heap's items of other shards are unchanged. */
  lemma {:induction false} OtherShard(shards: seq<Shard>, heap: seq<Item>, at: nat, heap': seq<Item>, i: nat, j: nat)
    requires at < |heap| && heap[at].idx == i && OnePerShard(heap, |shards|)
    requires var rest := heap[..at] + heap[at + 1..]; heap' == rest || (|heap'| == |rest| + 1 && heap'[..|rest|] == rest && heap'[|rest|].idx == i)
    ensures j != i ==> forall k | 0 <= k < |heap'| && heap'[k].idx == j :: heap'[k] in heap
    ensures j != i && (forall k | 0 <= k < |heap'| :: heap'[k].idx != j) ==> forall k | 0 <= k < |heap| :: heap[k].idx != j
    ensures heap' == heap[..at] + heap[at + 1..] ==> forall k | 0 <= k < |heap'| :: heap'[k].idx != i
  {
    var rest := heap[..at] + heap[at + 1..];
    forall k | 0 <= k < |rest|
      ensures heap'[k] == heap[Kept(at, k)] && heap'[k].idx != i
    {
      assert heap'[k] == heap'[..|rest|][k] == rest[k];
      assert heap[Kept(at, k)].idx != heap[at].idx;
    }
    if j != i && forall k | 0 <= k < |heap'| :: heap'[k].idx != j {
      forall k | 0 <= k < |heap|
        ensures heap[k].idx != j
      {
        if k != at {
          var m := if k < at then k else k - 1;
          assert heap'[m] == heap[Kept(at, m)];
        }
      }
    }
  }

  /** Where the k-th remaining item stood. */
  function Kept(at: nat, k: nat): nat {
    if k < at then k else k + 1
  }

  // ---------------------------------------------------------------- the merge

  /** The first read of a shard. */
  lemma {:induction false} Opened(shards: seq<Shard>, picks: seq<nat>, out: seq<Packet>, read: seq<nat>, bufs: seq<seq<Byte>>, heap: seq<Item>, n: nat,
                                  read': seq<nat>, bufs': seq<seq<Byte>>, heap': seq<Item>)
    requires Merging(shards, picks, out, read, bufs, heap, n) && n < |shards|
    requires if 0 < |shards[n].packets| then
        var p := shards[n].packets[0];
        read' == read[n := 1] && bufs' == bufs[n := p.data] && heap' == heap + [Item(p.ts, p.origLen, p.iface, p.block, n)]
      else read' == read && bufs' == bufs && heap' == heap && !shards[n].broken
    ensures Merging(shards, picks, out, read', bufs', heap', n + 1)
  {
    assert forall k | 0 <= k < |heap| :: heap'[k] == heap[k] && heap[k].idx != n;
    forall i | 0 <= i < n + 1
      ensures ShardOk(shards[i], i, |Project(out, picks, i)|, read'[i], bufs'[i], heap')
    {
      if i < n {
        assert ShardOk(shards[i], i, |Project(out, picks, i)|, read[i], bufs[i], heap);
        SameItems(shards[i], i, |Project(out, picks, i)|, read[i], bufs[i], heap, heap', n);
      } else {
        assert 0 < |shards[n].packets| ==> heap'[|heap|].idx == n;
      }
    }
  }

  /** A shard does not notice an item of another shard. */
  lemma {:induction false} SameItems(shard: Shard, i: nat, n: nat, read: nat, buf: seq<Byte>, heap: seq<Item>, heap': seq<Item>, other: nat)
    requires ShardOk(shard, i, n, read, buf, heap) && i != other
    requires heap' == heap || (|heap'| == |heap| + 1 && heap'[..|heap|] == heap && heap'[|heap|].idx == other)
    ensures ShardOk(shard, i, n, read, buf, heap')
  {
    assert forall k | 0 <= k < |heap| :: heap'[k] == heap[k];
  }

  /** Time order survives a write: the oldest item is written, and its shard's next packet is no older. */
  lemma {:induction false} StaysTimely(shards: seq<Shard>, picks: seq<nat>, out: seq<Packet>, heap: seq<Item>, at: nat, i: nat, n: nat, heap': seq<Item>)
    requires AllSorted(shards) && Timely(out, heap) && at < |heap| && i < |shards| && n < |shards[i].packets| && heap[at].ts == shards[i].packets[n].ts
    requires forall k | 0 <= k < |heap| :: heap[at].ts <= heap[k].ts
    requires var rest := heap[..at] + heap[at + 1..];
      heap' == rest || (n + 1 < |shards[i].packets| && |heap'| == |rest| + 1 && heap'[..|rest|] == rest && heap'[|rest|].ts == shards[i].packets[n + 1].ts)
    ensures Timely(out + [shards[i].packets[n]], heap')
  {
    var rest, p := heap[..at] + heap[at + 1..], shards[i].packets[n];
    assert Sorted(shards[i].packets);
    forall k | 0 <= k < |heap'|
      ensures p.ts <= heap'[k].ts && forall a | 0 <= a < |out| :: out[a].ts <= heap'[k].ts
    {
      if k < |rest| {
        assert heap'[k] == heap'[..|rest|][k] == rest[k] == heap[Kept(at, k)];
      } else {
        assert forall a | 0 <= a < |out| :: out[a].ts <= heap[at].ts;
      }
    }
  }

  /** Once the heap is empty every shard is written out. */
  lemma {:induction false} Drained(shards: seq<Shard>, picks: seq<nat>, out: seq<Packet>, read: seq<nat>, bufs: seq<seq<Byte>>)
    requires Merging(shards, picks, out, read, bufs, [], |shards|)
    ensures Interleaves(shards, picks, out) && forall i | 0 <= i < |shards| :: !shards[i].broken
  {
    forall i | 0 <= i < |shards|
      ensures Project(out, picks, i) == shards[i].packets && !shards[i].broken
    {
      assert ShardOk(shards[i], i, |Project(out, picks, i)|, read[i], bufs[i], []);
      assert Written(shards[i], picks, out, i);
    }
  }

  lemma {:induction false} ReadBound(shards: seq<Shard>, picks: seq<nat>, out: seq<Packet>, read: seq<nat>, bufs: seq<seq<Byte>>, heap: seq<Item>, n: nat, i: nat)
    requires Merging(shards, picks, out, read, bufs, heap, n) && i < |shards|
    ensures read[i] <= |shards[i].packets|
  {
    if i < n {
      assert ShardOk(shards[i], i, |Project(out, picks, i)|, read[i], bufs[i], heap);
    }
  }

  /** Fills the heap with each shard's first packet. */
  method Open(shards: seq<Shard>, read: array<nat>, bufs: array<seq<Byte>>) returns (ok: bool, heap: seq<Item>)
    requires read.Length == bufs.Length == |shards| && forall i | 0 <= i < |shards| :: read[i] == 0
    modifies read, bufs
    ensures ok ==> Merging(shards, [], [], read[..], bufs[..], heap, |shards|)
    ensures !ok ==> exists i | 0 <= i < |shards| :: shards[i].broken
  {
    heap := [];
    ok := true;
    for i := 0 to |shards|
      invariant Merging(shards, [], [], read[..], bufs[..], heap, i)
    {
      ghost var read0, bufs0, heap0 := read[..], bufs[..], heap;
      var r := NextItem(shards, i, read, bufs);
      if r.Failed? {
        return false, heap;
      }
      if r.Got? {
        heap := heap + [r.item];
      }
      Opened(shards, [], [], read0, bufs0, heap0, i, read[..], bufs[..], heap);
    }
  }

  /** Merges the shards: refused exactly when one cannot be read to its end; otherwise an interleaving of them,
      in time order whenever each of them is. */
  method MergeShards(shards: seq<Shard>) returns (ok: bool, out: seq<Packet>, ghost picks: seq<nat>)
    ensures ok ==> Interleaves(shards, picks, out)
    ensures ok ==> AllSorted(shards) ==> Sorted(out)
    ensures ok <==> forall i | 0 <= i < |shards| :: !shards[i].broken
  {
    var read := new nat[|shards|](_ => 0);
    var bufs := new seq<Byte>[|shards|](_ => []);
    out, picks := [], [];
    var heap;
    ok, heap := Open(shards, read, bufs);
    if !ok {
      return;
    }
    while heap != []
      invariant Merging(shards, picks, out, read[..], bufs[..], heap, |shards|)
      invariant AllSorted(shards) ==> Timely(out, heap)
      decreases Left(shards, read[..], heap)
    {
      var p, i;
      ok, p, i, heap := WriteOne(shards, read, bufs, heap, out, picks);
      if !ok {
        return;
      }
      out, picks := out + [p], picks + [i];
    }
    Drained(shards, picks, out, read[..], bufs[..]);
    ok := true;
  }

  /** Writes the oldest packet out of its shard's buffer, then reads that shard's next one into it. */
  method WriteOne(shards: seq<Shard>, read: array<nat>, bufs: array<seq<Byte>>, heap: seq<Item>, out: seq<Packet>, ghost picks: seq<nat>)
    returns (ok: bool, p: Packet, i: nat, heap': seq<Item>)
    requires read.Length == bufs.Length == |shards| && heap != []
    requires Merging(shards, picks, out, read[..], bufs[..], heap, |shards|)
    modifies read, bufs
    ensures ok ==> Merging(shards, picks + [i], out + [p], read[..], bufs[..], heap', |shards|)
    ensures ok && AllSorted(shards) && Timely(out, heap) ==> Timely(out + [p], heap')
    ensures ok ==> Left(shards, read[..], heap') < Left(shards, old(read[..]), heap) && 0 <= Left(shards, old(read[..]), heap)
    ensures !ok ==> exists j | 0 <= j < |shards| :: shards[j].broken
  {
    ghost var read0, bufs0 := read[..], bufs[..];
    var at, it, rest := PopOldest(heap);
    Popped(shards, picks, out, read0, bufs0, heap, at);
    i := it.idx;
    ghost var n := |Project(out, picks, i)|;
    p := Packet(it.ts, bufs[i], it.origLen, it.iface, it.block);
    var r := NextItem(shards, i, read, bufs);
    if r.Failed? {
      return false, p, i, rest;
    }
    ok, heap' := true, if r.Got? then rest + [r.item] else rest;
    Advanced(shards, picks, out, read0, bufs0, heap, at, read[..], bufs[..], heap');
    if AllSorted(shards) && Timely(out, heap) {
      StaysTimely(shards, picks, out, heap, at, i, n, heap');
    }
    forall j | 0 <= j < |shards|
      ensures read0[j] <= |shards[j].packets|
    {
      ReadBound(shards, picks, out, read0, bufs0, heap, |shards|, j);
    }
    LeftDrops(shards, read0, read[..], heap, heap', i);
  }

  ghost function Left(shards: seq<Shard>, read: seq<nat>, heap: seq<Item>): int
    requires |read| == |shards|
  {
    Unread(shards, read) + |heap|
  }

  lemma {:induction false} LeftDrops(shards: seq<Shard>, read: seq<nat>, read': seq<nat>, heap: seq<Item>, heap': seq<Item>, i: nat)
    requires |read| == |read'| == |shards| && i < |shards|
    requires (read' == read[i := read[i] + 1] && |heap'| == |heap|) || (read' == read && |heap'| == |heap| - 1)
    requires forall j | 0 <= j < |shards| :: read[j] <= |shards[j].packets|
    ensures Left(shards, read', heap') < Left(shards, read, heap) && 0 <= Left(shards, read, heap)
  {
    if read' != read {
      UnreadDrops(shards, read, i, read[i] + 1);
    }
    UnreadCounts(shards, read);
  }
}
