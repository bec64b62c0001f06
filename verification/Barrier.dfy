/** The tag completion protocol: tombstone, grace period, producer watermark, reader acknowledgement,
    then close and merge, in any interleaving of producers, shard readers and the finalizer. */
module Barrier {

  type Tag = nat
  type Id = nat

  /** A ring record: reserved by a running producer, then committed or discarded. */
  datatype Phase = Busy | Committed | Discarded
  datatype Rec = Rec(tag: Tag, phase: Phase, owner: Id)

  /** What became of a record: written, cut by a limit, thrown away on request, dropped because its tag was
      already finalized, refused as malformed, lost to an output error, or never delivered (discarded). */
  datatype Fate = Written | Limited | Nulled | DroppedAsFinal | Malformed | Lost | Skipped

  /** What the sink can do with a record it is handed. */
  datatype How = Write | Limit | Null | Bad | Fail

  /** One per-CPU shard.  `read` is the consumer position; records below `handled` went through the sink
      and its flush; `acked` is the watermark the shard published afterwards. */
  datatype Shard = Shard(ring: seq<Rec>, read: nat, handled: nat, fates: seq<Fate>, acked: nat)

  /** How far the completion of a tag has come. */
  datatype Stage =
    | Live
    | Tombstoned
    | Grace(waiting: set<Id>)
    | Snapshot(targets: seq<nat>)
    | Polling(targets: seq<nat>, seen: nat)
    | Final
    | Merged

  /** `running` maps each running BPF invocation to the tags whose gate it passed; `finals` are the positions
      every reader drains to once capture stops. */
  datatype World = World(closed: set<Tag>, running: map<Id, set<Tag>>, started: nat, shards: seq<Shard>, stages: map<Tag, Stage>,
                         err: bool, detached: bool, stopped: bool, finals: seq<nat>, exited: set<nat>)

  datatype Action =
    // producers
    | Begin                                             // an invocation starts
    | Gate(id: Id, tag: Tag)                            // it looks its tag up among the tombstones
    | Reserve(id: Id, tag: Tag, shard: nat)
    | Commit(id: Id, shard: nat, pos: nat, keep: bool)  // submit, or discard after a failed copy
    | End(id: Id)
    // shard readers
    | Read(shard: nat)
    | Handle(shard: nat, how: How)
    | Acknowledge(shard: nat)
    // the finalizer
    | Tombstone(tag: Tag)
    | WaitForProducers(tag: Tag)
    | ProducersDone(tag: Tag)
    | TakeWatermark(tag: Tag)
    | StartPoll(tag: Tag)
    | PollShard(tag: Tag)
    | PollFails(tag: Tag)
    | Finalize(tag: Tag)
    | Merge(tag: Tag)
    // the end of a capture
    | Detach
    | Stop
    | LeaveShard(shard: nat)

  ghost function StageOf(w: World, tag: Tag): Stage {
    if tag in w.stages then w.stages[tag] else Live
  }

  ghost predicate IsFinal(w: World, tag: Tag) {
    StageOf(w, tag).Final? || StageOf(w, tag).Merged?
  }

  ghost predicate OwnsBusy(w: World, id: Id) {
    exists s, q | 0 <= s < |w.shards| && 0 <= q < |w.shards[s].ring| ::
      w.shards[s].ring[q].phase.Busy? && w.shards[s].ring[q].owner == id
  }

  ghost predicate Enabled(w: World, a: Action) {
    match a
    case Begin => !w.detached
    case Gate(id, _) => id in w.running
    // a record is reserved only for a tag whose gate this invocation passed
    case Reserve(id, tag, s) => id in w.running && tag in w.running[id] && s < |w.shards|
    case Commit(id, s, q, _) =>
      s < |w.shards| && q < |w.shards[s].ring| && w.shards[s].ring[q].phase.Busy? && w.shards[s].ring[q].owner == id
    // the verifier makes every program release its reservation before it exits
    case End(id) => id in w.running && !OwnsBusy(w, id)
    // readers stop at a record that is still busy
    case Read(s) => s < |w.shards| && s !in w.exited && w.shards[s].read < |w.shards[s].ring| && !w.shards[s].ring[w.shards[s].read].phase.Busy?
    case Handle(s, _) => s < |w.shards| && w.shards[s].handled < w.shards[s].read <= |w.shards[s].ring|
    // published only after the sink and its flush have returned
    case Acknowledge(s) => s < |w.shards| && w.shards[s].handled == w.shards[s].read
    case Tombstone(tag) => tag != 0 && StageOf(w, tag).Live?
    case WaitForProducers(tag) => StageOf(w, tag).Tombstoned?
    case ProducersDone(tag) => StageOf(w, tag).Grace? && StageOf(w, tag).waiting !! w.running.Keys
    case TakeWatermark(tag) => StageOf(w, tag).Snapshot? && |StageOf(w, tag).targets| < |w.shards|
    case StartPoll(tag) => !w.err && StageOf(w, tag).Snapshot? && |StageOf(w, tag).targets| == |w.shards|
    case PollShard(tag) =>
      var st := StageOf(w, tag);
      !w.err && st.Polling? && st.seen < |w.shards| && st.seen < |st.targets| && w.shards[st.seen].acked >= st.targets[st.seen]
    case PollFails(tag) => StageOf(w, tag).Polling?
    case Finalize(tag) => !w.err && StageOf(w, tag).Polling? && StageOf(w, tag).seen == |w.shards|
    case Merge(tag) => StageOf(w, tag).Final?
    case Detach => true
    // quiescing detaches the probes and waits for the invocations still running
    case Stop => w.detached && !w.stopped && w.running == map[]
    // a reader leaves after flushing, once it has consumed up to its final position
    case LeaveShard(s) => w.stopped && s < |w.shards| && s < |w.finals| && w.shards[s].handled == w.shards[s].read && w.shards[s].read >= w.finals[s]
  }

  ghost function FateOf(w: World, r: Rec, how: How): Fate {
    if r.phase.Discarded? then Skipped
    else if how.Bad? then Malformed
    else if how.Null? then Nulled
    else if how.Fail? then Lost
    else if IsFinal(w, r.tag) then DroppedAsFinal
    else if how.Limit? then Limited else Written
  }

  ghost function PutShard(w: World, s: nat, h: Shard): World
    requires s < |w.shards|
  {
    w.(shards := w.shards[s := h])
  }

  ghost function PutStage(w: World, tag: Tag, st: Stage): World {
    w.(stages := w.stages[tag := st])
  }

  ghost function Next(w: World, a: Action): World
    requires Enabled(w, a)
  {
    match a
    case Begin => w.(running := w.running[w.started := {}], started := w.started + 1)
    case Gate(id, tag) =>
      if tag in w.closed then w.(running := w.running[id := {}])   // exits: it emits nothing any more
      else w.(running := w.running[id := w.running[id] + {tag}])
    case Reserve(id, tag, s) =>
      var h := w.shards[s];
      PutShard(w, s, h.(ring := h.ring + [Rec(tag, Busy, id)]))
    case Commit(id, s, q, keep) =>
      var h := w.shards[s];
      PutShard(w, s, h.(ring := h.ring[q := h.ring[q].(phase := if keep then Committed else Discarded)]))
    case End(id) => w.(running := w.running - {id})
    case Read(s) => var h := w.shards[s]; PutShard(w, s, h.(read := h.read + 1))
    case Handle(s, how) =>
      var h := w.shards[s];
      var fate := FateOf(w, h.ring[h.handled], how);
      PutShard(w, s, h.(handled := h.handled + 1, fates := h.fates + [fate])).(err := w.err || fate.Malformed? || fate.Lost?)
    case Acknowledge(s) => var h := w.shards[s]; PutShard(w, s, h.(acked := h.read))
    case Tombstone(tag) => PutStage(w.(closed := w.closed + {tag}), tag, Tombstoned)
    case WaitForProducers(tag) => PutStage(w, tag, Grace(w.running.Keys))
    case ProducersDone(tag) => PutStage(w, tag, Snapshot([]))
    case TakeWatermark(tag) =>
      var t := StageOf(w, tag).targets;
      PutStage(w, tag, Snapshot(t + [|w.shards[|t|].ring|]))
    case StartPoll(tag) => PutStage(w, tag, Polling(StageOf(w, tag).targets, 0))
    case PollShard(tag) => var st := StageOf(w, tag); PutStage(w, tag, st.(seen := st.seen + 1))
    case PollFails(tag) => PutStage(w, tag, StageOf(w, tag).(seen := 0))
    case Finalize(tag) => PutStage(w, tag, Final)
    case Merge(tag) => PutStage(w, tag, Merged)
    case Detach => w.(detached := true)
    case Stop => w.(stopped := true, finals := seq(|w.shards|, s requires 0 <= s < |w.shards| => |w.shards[s].ring|))
    case LeaveShard(s) => w.(exited := w.exited + {s})
  }

  // ---------------------------------------------------------------- invariant

  ghost predicate ShardOk(h: Shard) {
    h.acked <= h.handled <= h.read <= |h.ring| && |h.fates| == h.handled &&
    (forall q | 0 <= q < h.read :: !h.ring[q].phase.Busy?) &&
    (forall q | 0 <= q < h.handled :: h.fates[q] != DroppedAsFinal && (h.fates[q].Skipped? <==> h.ring[q].phase.Discarded?))
  }

  /** Accounted for as intended. */
  ghost predicate Good(f: Fate) {
    f.Written? || f.Limited? || f.Nulled? || f.Skipped?
  }

  ghost predicate ErrorsShow(w: World) {
    !w.err ==> forall s | 0 <= s < |w.shards| :: AllGood(w.shards[s].fates)
  }

  ghost predicate AllGood(fates: seq<Fate>) {
    forall q | 0 <= q < |fates| :: Good(fates[q])
  }

  ghost predicate EndOk(w: World) {
    (w.stopped ==>
      w.detached && w.running == map[] && |w.finals| == |w.shards| &&
      forall s | 0 <= s < |w.shards| :: w.finals[s] == |w.shards[s].ring|) &&
    (forall s | s in w.exited :: w.stopped && s < |w.shards| && w.shards[s].handled == w.shards[s].read == |w.shards[s].ring|)
  }

  /** Reserved records belong to running invocations, which are numbered as they start. */
  ghost predicate ProducersOk(w: World) {
    (forall id | id in w.running :: id < w.started) &&
    (forall s, q | 0 <= s < |w.shards| && 0 <= q < |w.shards[s].ring| && w.shards[s].ring[q].phase.Busy? ::
      w.shards[s].ring[q].owner in w.running)
  }

  /** Whatever can still emit `tag` is among `waiting`. */
  ghost predicate OnlyWaiting(w: World, tag: Tag, waiting: set<Id>) {
    (forall id | id in w.running && tag in w.running[id] :: id in waiting) &&
    (forall s, q | 0 <= s < |w.shards| && 0 <= q < |w.shards[s].ring| ::
      w.shards[s].ring[q].tag == tag && w.shards[s].ring[q].phase.Busy? ==> w.shards[s].ring[q].owner in waiting)
  }

  /** Every record of `tag` in shard `s` lies below `bound`. */
  ghost predicate Below(w: World, tag: Tag, s: nat, bound: nat)
    requires s < |w.shards|
  {
    forall q | 0 <= q < |w.shards[s].ring| && w.shards[s].ring[q].tag == tag :: q < bound
  }

  ghost predicate TagOk(w: World, tag: Tag) {
    var st := StageOf(w, tag);
    (!st.Live? ==> tag in w.closed) &&
    (st.Grace? ==> OnlyWaiting(w, tag, st.waiting) && forall id | id in st.waiting :: id < w.started) &&
    (st.Snapshot? || st.Polling? || st.Final? || st.Merged? ==> OnlyWaiting(w, tag, {})) &&
    (st.Snapshot? ==> |st.targets| <= |w.shards| && forall s | 0 <= s < |st.targets| :: Below(w, tag, s, st.targets[s])) &&
    (st.Polling? ==>
      |st.targets| == |w.shards| && st.seen <= |w.shards| &&
      (forall s | 0 <= s < |w.shards| :: Below(w, tag, s, st.targets[s])) &&
      (forall s | 0 <= s < st.seen :: st.targets[s] <= w.shards[s].acked)) &&
    (IsFinal(w, tag) ==> forall s | 0 <= s < |w.shards| :: Below(w, tag, s, w.shards[s].acked)) &&
    (IsFinal(w, tag) ==> FatesGood(w, tag))
  }

  ghost predicate FatesGood(w: World, tag: Tag) {
    forall s, q | 0 <= s < |w.shards| && 0 <= q < |w.shards[s].fates| && q < |w.shards[s].ring| && w.shards[s].ring[q].tag == tag ::
      Good(w.shards[s].fates[q])
  }

  ghost predicate Inv(w: World) {
    ProducersOk(w) && ErrorsShow(w) && EndOk(w) && ShardsOk(w) && forall tag: Tag :: TagOk(w, tag)
  }

  ghost predicate ShardsOk(w: World) {
    forall s | 0 <= s < |w.shards| :: ShardOk(w.shards[s])
  }

  /** What the sink step relies on: the record it handles belongs to a tag in order. */
  ghost predicate HandlesOk(w: World, a: Action)
    requires Enabled(w, a)
  {
    a.Handle? ==> TagOk(w, w.shards[a.shard].ring[w.shards[a.shard].handled].tag)
  }

  lemma {:induction false} ProducersStay(w: World, a: Action)
    requires ProducersOk(w) && Enabled(w, a)
    ensures ProducersOk(Next(w, a))
  {
    var w' := Next(w, a);
    if a.End? {
      forall s, q | 0 <= s < |w'.shards| && 0 <= q < |w'.shards[s].ring| && w'.shards[s].ring[q].phase.Busy?
        ensures w'.shards[s].ring[q].owner in w'.running
      {
        NotOwner(w, a.id, s, q);
      }
    }
  }

  lemma {:induction false} NotOwner(w: World, id: Id, s: nat, q: nat)
    requires !OwnsBusy(w, id) && s < |w.shards| && q < |w.shards[s].ring| && w.shards[s].ring[q].phase.Busy?
    ensures w.shards[s].ring[q].owner != id
  {
  }

  /** No record is ever dropped by its own tag's finalization: when a tag is final, all its records lie
      below every shard's acknowledged watermark. */
  lemma {:induction false} HandledInTime(w: World, a: Action)
    requires ShardsOk(w) && Enabled(w, a) && a.Handle? && HandlesOk(w, a)
    ensures !IsFinal(w, w.shards[a.shard].ring[w.shards[a.shard].handled].tag)
  {
    var h := w.shards[a.shard];
    assert ShardOk(h);
    var tag := h.ring[h.handled].tag;
    assert IsFinal(w, tag) ==> Below(w, tag, a.shard, h.acked);
  }

  lemma {:induction false} ShardsStay(w: World, a: Action)
    requires ShardsOk(w) && Enabled(w, a) && HandlesOk(w, a)
    ensures ShardsOk(Next(w, a))
  {
    var w' := Next(w, a);
    if a.Handle? {
      HandledInTime(w, a);
    }
    forall s | 0 <= s < |w'.shards|
      ensures ShardOk(w'.shards[s])
    {
      assert ShardOk(w.shards[s]);
    }
  }

  /** Past the grace period a producer step adds no record of the tag and moves none. */
  lemma {:induction false} ProducerKeepsBounds(w: World, a: Action, tag: Tag)
    requires Enabled(w, a) && (a.Begin? || a.Gate? || a.Reserve? || a.Commit? || a.End?) && OnlyWaiting(w, tag, {})
    requires tag in w.closed
    ensures OnlyWaiting(Next(w, a), tag, {})
    ensures |Next(w, a).shards| == |w.shards|
    ensures forall s: nat, bound: nat | s < |w.shards| && Below(w, tag, s, bound) :: Below(Next(w, a), tag, s, bound)
  {
    var w' := Next(w, a);
    forall s: nat, bound: nat | s < |w.shards| && Below(w, tag, s, bound)
      ensures Below(w', tag, s, bound)
    {
    }
  }

  lemma {:induction false} ProducerKeepsWaiting(w: World, a: Action, tag: Tag, waiting: set<Id>)
    requires ProducersOk(w) && Enabled(w, a) && (a.Begin? || a.Gate? || a.Reserve? || a.Commit? || a.End?)
    requires OnlyWaiting(w, tag, waiting) && tag in w.closed
    ensures OnlyWaiting(Next(w, a), tag, waiting)
  {
  }

  lemma {:induction false} ProducerKeepsFates(w: World, a: Action, tag: Tag)
    requires Enabled(w, a) && (a.Begin? || a.Gate? || a.Reserve? || a.Commit? || a.End?) && FatesGood(w, tag)
    requires forall s | 0 <= s < |w.shards| :: |w.shards[s].fates| <= |w.shards[s].ring|
    ensures FatesGood(Next(w, a), tag)
  {
    var w' := Next(w, a);
    assert |w'.shards| == |w.shards| && forall s | 0 <= s < |w.shards| ::
      w'.shards[s].fates == w.shards[s].fates && |w.shards[s].ring| <= |w'.shards[s].ring| &&
      forall q | 0 <= q < |w.shards[s].ring| :: w'.shards[s].ring[q].tag == w.shards[s].ring[q].tag;
  }

  lemma {:induction false} ProducerKeepsTag(w: World, a: Action, tag: Tag)
    requires ProducersOk(w) && ShardsOk(w) && TagOk(w, tag) && Enabled(w, a) && (a.Begin? || a.Gate? || a.Reserve? || a.Commit? || a.End?)
    ensures TagOk(Next(w, a), tag)
  {
    var w', st := Next(w, a), StageOf(w, tag);
    assert TagOk(w, tag);
    assert StageOf(w', tag) == st;
    assert |w'.shards| == |w.shards| && forall s | 0 <= s < |w.shards| :: w'.shards[s].acked == w.shards[s].acked;
    if st.Grace? {
      ProducerKeepsWaiting(w, a, tag, st.waiting);
    } else if st.Snapshot? || st.Polling? || IsFinal(w, tag) {
      ProducerKeepsBounds(w, a, tag);
      if IsFinal(w, tag) {
        assert forall s | 0 <= s < |w.shards| :: ShardOk(w.shards[s]);
        ProducerKeepsFates(w, a, tag);
      }
    }
  }

  /** Readers move no record and only raise what they acknowledged. */
  lemma {:induction false} ReaderKeepsRings(w: World, a: Action)
    requires ShardsOk(w) && Enabled(w, a) && (a.Read? || a.Handle? || a.Acknowledge?)
    ensures var w' := Next(w, a);
      |w'.shards| == |w.shards| && w'.running == w.running && w'.started == w.started && w'.closed == w.closed && w'.stages == w.stages &&
      forall s | 0 <= s < |w.shards| :: w'.shards[s].ring == w.shards[s].ring && w.shards[s].acked <= w'.shards[s].acked
  {
    assert ShardOk(w.shards[a.shard]);
  }

  lemma {:induction false} ReaderKeepsFates(w: World, a: Action, tag: Tag)
    requires ShardsOk(w) && TagOk(w, tag) && IsFinal(w, tag) && Enabled(w, a) && (a.Read? || a.Handle? || a.Acknowledge?)
    ensures FatesGood(Next(w, a), tag)
  {
    assert ShardOk(w.shards[a.shard]) && Below(w, tag, a.shard, w.shards[a.shard].acked);
  }

  lemma {:induction false} ReaderKeepsTag(w: World, a: Action, tag: Tag)
    requires ShardsOk(w) && TagOk(w, tag) && Enabled(w, a) && (a.Read? || a.Handle? || a.Acknowledge?)
    ensures TagOk(Next(w, a), tag)
  {
    var w' := Next(w, a);
    ReaderKeepsRings(w, a);
    if IsFinal(w, tag) {
      ReaderKeepsFates(w, a, tag);
    }
    RingsKeepTag(w, w', tag);
  }

  /** A tag's state carries over to a world with the same rings and producers and later acknowledgements. */
  lemma {:induction false} RingsKeepTag(w: World, w': World, tag: Tag)
    requires TagOk(w, tag) && (IsFinal(w, tag) ==> FatesGood(w', tag))
    requires |w'.shards| == |w.shards| && w'.running == w.running && w'.started == w.started && w'.closed == w.closed && w'.stages == w.stages
    requires forall s | 0 <= s < |w.shards| :: w'.shards[s].ring == w.shards[s].ring && w.shards[s].acked <= w'.shards[s].acked
    ensures TagOk(w', tag)
  {
    forall s: nat, bound: nat | s < |w.shards| && Below(w, tag, s, bound)
      ensures Below(w', tag, s, bound)
    {
    }
    if IsFinal(w, tag) {
      forall s | 0 <= s < |w.shards|
        ensures Below(w', tag, s, w'.shards[s].acked)
      {
        assert Below(w, tag, s, w.shards[s].acked);
      }
    }
  }

  /** Below and OnlyWaiting look at producers and rings only. */
  lemma {:induction false} SameRings(w: World, w': World, tag: Tag)
    requires w'.shards == w.shards && w'.running == w.running
    ensures forall waiting: set<Id> :: OnlyWaiting(w', tag, waiting) == OnlyWaiting(w, tag, waiting)
    ensures forall s: nat, bound: nat | s < |w.shards| :: Below(w', tag, s, bound) == Below(w, tag, s, bound)
  {
  }

  lemma {:induction false} WatermarkCovers(w: World, tag: Tag)
    requires TagOk(w, tag) && Enabled(w, TakeWatermark(tag))
    ensures TagOk(Next(w, TakeWatermark(tag)), tag)
  {
    var w' := Next(w, TakeWatermark(tag));
    SameRings(w, w', tag);
    var t := StageOf(w, tag).targets;
    assert Below(w, tag, |t|, |w.shards[|t|].ring|);
  }

  lemma {:induction false} AcknowledgedIsFinal(w: World, tag: Tag)
    requires ErrorsShow(w) && TagOk(w, tag) && Enabled(w, Finalize(tag))
    ensures TagOk(Next(w, Finalize(tag)), tag)
  {
    var w' := Next(w, Finalize(tag));
    SameRings(w, w', tag);
    forall s | 0 <= s < |w.shards|
      ensures Below(w', tag, s, w'.shards[s].acked)
    {
      assert Below(w, tag, s, StageOf(w, tag).targets[s]);
    }
  }

  /** Nobody who could emit the tag outlives the grace period. */
  lemma {:induction false} GraceEnds(w: World, tag: Tag)
    requires ProducersOk(w) && TagOk(w, tag) && Enabled(w, ProducersDone(tag))
    ensures TagOk(Next(w, ProducersDone(tag)), tag)
  {
    var w' := Next(w, ProducersDone(tag));
    SameRings(w, w', tag);
    assert OnlyWaiting(w, tag, StageOf(w, tag).waiting);
    assert OnlyWaiting(w, tag, {});
  }

  ghost predicate IsFinalizers(a: Action) {
    a.Tombstone? || a.WaitForProducers? || a.ProducersDone? || a.TakeWatermark? || a.StartPoll? || a.PollShard? || a.PollFails? ||
    a.Finalize? || a.Merge?
  }

  /** The finalizer touches its tag's stage and the tombstones, nothing else. */
  lemma {:induction false} FinalizerShape(w: World, a: Action)
    requires Enabled(w, a) && IsFinalizers(a)
    ensures var w' := Next(w, a);
      w'.shards == w.shards && w'.running == w.running && w'.started == w.started && w.closed <= w'.closed &&
      forall tag: Tag | tag != a.tag :: StageOf(w', tag) == StageOf(w, tag)
  {
  }

  lemma {:induction false} GateStep(w: World, a: Action)
    requires ProducersOk(w) && (a.Tombstone? || a.WaitForProducers?) && TagOk(w, a.tag) && Enabled(w, a)
    ensures TagOk(Next(w, a), a.tag)
  {
    SameRings(w, Next(w, a), a.tag);
  }

  lemma {:induction false} PollStep(w: World, a: Action)
    requires (a.StartPoll? || a.PollShard? || a.PollFails? || a.Merge?) && TagOk(w, a.tag) && Enabled(w, a)
    ensures TagOk(Next(w, a), a.tag)
  {
    SameRings(w, Next(w, a), a.tag);
  }

  lemma {:induction false} FinalizerKeepsTag(w: World, a: Action, tag: Tag)
    requires ProducersOk(w) && ErrorsShow(w) && TagOk(w, tag) && Enabled(w, a) && IsFinalizers(a)
    ensures TagOk(Next(w, a), tag)
  {
    if a.tag != tag {
      FinalizerShape(w, a);
      OtherTagStays(w, Next(w, a), tag);
    } else if a.TakeWatermark? {
      WatermarkCovers(w, tag);
    } else if a.Finalize? {
      AcknowledgedIsFinal(w, tag);
    } else if a.ProducersDone? {
      GraceEnds(w, tag);
    } else if a.Tombstone? || a.WaitForProducers? {
      GateStep(w, a);
    } else {
      PollStep(w, a);
    }
  }

  lemma {:induction false} OtherTagStays(w: World, w': World, tag: Tag)
    requires TagOk(w, tag) && w'.shards == w.shards && w'.running == w.running && w'.started == w.started
    requires w.closed <= w'.closed && StageOf(w', tag) == StageOf(w, tag)
    ensures TagOk(w', tag)
  {
    SameRings(w, w', tag);
  }

  lemma {:induction false} ErrorsStayShown(w: World, a: Action)
    requires ErrorsShow(w) && ShardsOk(w) && Enabled(w, a) && HandlesOk(w, a)
    ensures ErrorsShow(Next(w, a))
  {
    if a.Handle? {
      HandledInTime(w, a);
    }
  }

  lemma {:induction false} EndStays(w: World, a: Action)
    requires EndOk(w) && ProducersOk(w) && ShardsOk(w) && Enabled(w, a)
    ensures EndOk(Next(w, a))
  {
    forall s | 0 <= s < |w.shards| ensures |w.shards[s].fates| == w.shards[s].handled <= |w.shards[s].ring| {
      assert ShardOk(w.shards[s]);
    }
    if a.Commit? {
      assert w.shards[a.shard].ring[a.pos].owner in w.running;
    }
  }

  lemma {:induction false} StepKeeps(w: World, a: Action)
    requires Inv(w) && Enabled(w, a)
    ensures Inv(Next(w, a))
  {
    ProducersStay(w, a);
    EndStays(w, a);
    ErrorsStayShown(w, a);
    ShardsStay(w, a);
    forall tag: Tag
      ensures TagOk(Next(w, a), tag)
    {
      assert TagOk(w, tag);
      if a.Begin? || a.Gate? || a.Reserve? || a.Commit? || a.End? {
        ProducerKeepsTag(w, a, tag);
      } else if a.Read? || a.Handle? || a.Acknowledge? {
        ReaderKeepsTag(w, a, tag);
      } else if IsFinalizers(a) {
        FinalizerKeepsTag(w, a, tag);
      } else {
        OtherTagStays(w, Next(w, a), tag);
      }
    }
  }

  // ---------------------------------------------------------------- runs

  ghost function Start(shards: nat): World {
    World({}, map[], 0, seq(shards, _ => Shard([], 0, 0, [], 0)), map[], false, false, false, [], {})
  }

  ghost predicate Plays(w: World, acts: seq<Action>)
    decreases |acts|
  {
    acts == [] || (Enabled(w, acts[0]) && Plays(Next(w, acts[0]), acts[1..]))
  }

  ghost function After(w: World, acts: seq<Action>): World
    requires Plays(w, acts)
    decreases |acts|
  {
    if acts == [] then w else After(Next(w, acts[0]), acts[1..])
  }

  lemma {:induction false} RunKeeps(w: World, acts: seq<Action>)
    requires Inv(w) && Plays(w, acts)
    ensures Inv(After(w, acts))
    decreases |acts|
  {
    if acts != [] {
      StepKeeps(w, acts[0]);
      RunKeeps(Next(w, acts[0]), acts[1..]);
    }
  }

  /** Every record of `tag` ever reserved has been released and went through the sink. */
  ghost predicate Complete(w: World, tag: Tag) {
    forall s, q | 0 <= s < |w.shards| && 0 <= q < |w.shards[s].ring| && w.shards[s].ring[q].tag == tag ::
      !w.shards[s].ring[q].phase.Busy? && q < w.shards[s].handled && q < |w.shards[s].fates| && Good(w.shards[s].fates[q])
  }

  /** How many records of `tag` a shard's ring holds. */
  ghost function CountTag(ring: seq<Rec>, tag: Tag): nat {
    if ring == [] then 0 else CountTag(ring[..|ring| - 1], tag) + (if ring[|ring| - 1].tag == tag then 1 else 0)
  }

  /** Finalisation safety: in every run, once a tag is final, every record of it that any producer ever put
      in any ring was already written or counted as limited, and none of them was dropped as late. */
  lemma {:induction false} FinalMeansComplete(shards: nat, acts: seq<Action>, tag: Tag)
    requires Plays(Start(shards), acts) && IsFinal(After(Start(shards), acts), tag)
    ensures Complete(After(Start(shards), acts), tag)
  {
    var w := After(Start(shards), acts);
    RunKeeps(Start(shards), acts);
    assert TagOk(w, tag);
    forall s, q | 0 <= s < |w.shards| && 0 <= q < |w.shards[s].ring| && w.shards[s].ring[q].tag == tag
      ensures !w.shards[s].ring[q].phase.Busy? && q < w.shards[s].handled && q < |w.shards[s].fates| && Good(w.shards[s].fates[q])
    {
      assert ShardOk(w.shards[s]) && Below(w, tag, s, w.shards[s].acked);
    }
  }

  /** A final tag stays final, and no later action adds a record of it, whatever is re-added outside. */
  lemma {:induction false} FinalStepAddsNothing(w: World, a: Action, tag: Tag)
    requires TagOk(w, tag) && Enabled(w, a) && IsFinal(w, tag)
    ensures IsFinal(Next(w, a), tag)
    ensures |Next(w, a).shards| == |w.shards|
    ensures forall s | 0 <= s < |w.shards| :: CountTag(Next(w, a).shards[s].ring, tag) == CountTag(w.shards[s].ring, tag)
  {
    assert TagOk(w, tag);
    var w' := Next(w, a);
    match a {
      case Reserve(id, t, s) =>
        var ring := w.shards[s].ring;
        assert (ring + [Rec(t, Busy, id)])[..|ring|] == ring;
      case Commit(id, s, q, keep) =>
        CountSame(w.shards[s].ring, q, w'.shards[s].ring[q], tag);
      case _ =>
    }
  }

  lemma {:induction false} CountSame(ring: seq<Rec>, q: nat, r: Rec, tag: Tag)
    requires q < |ring| && r.tag == ring[q].tag
    ensures CountTag(ring[q := r], tag) == CountTag(ring, tag)
    decreases |ring|
  {
    var n := |ring| - 1;
    if q == n {
      assert ring[q := r][..n] == ring[..n];
    } else {
      CountSame(ring[..n], q, r, tag);
      assert ring[q := r][..n] == ring[..n][q := r];
    }
  }

  lemma {:induction false} FinalForever(w: World, acts: seq<Action>, tag: Tag)
    requires Inv(w) && Plays(w, acts) && IsFinal(w, tag)
    ensures IsFinal(After(w, acts), tag) && |After(w, acts).shards| == |w.shards|
    ensures forall s | 0 <= s < |w.shards| ::
      CountTag(After(w, acts).shards[s].ring, tag) == CountTag(w.shards[s].ring, tag)
    decreases |acts|
  {
    if acts != [] {
      StepKeeps(w, acts[0]);
      assert TagOk(w, tag);
      FinalStepAddsNothing(w, acts[0], tag);
      FinalForever(Next(w, acts[0]), acts[1..], tag);
    }
  }

  // ---------------------------------------------------------------- accounting

  /** The session and output counters. */
  datatype Counts = Counts(consumed: nat, written: nat, limited: nat, nulled: nat, malformed: nat) {
    ghost function Plus(o: Counts): Counts {
      Counts(consumed + o.consumed, written + o.written, limited + o.limited, nulled + o.nulled, malformed + o.malformed)
    }

    ghost function Accounted(): nat {
      written + limited + nulled + malformed
    }
  }

  /** Records delivered to the sink among the first `n` of a ring. */
  ghost function Delivered(ring: seq<Rec>, n: nat): nat
    requires n <= |ring|
  {
    if n == 0 then 0 else Delivered(ring, n - 1) + (if ring[n - 1].phase.Discarded? then 0 else 1)
  }

  /** How often `f` is among the first `n` fates. */
  ghost function Times(fates: seq<Fate>, n: nat, f: Fate): nat
    requires n <= |fates|
  {
    if n == 0 then 0 else Times(fates, n - 1, f) + (if fates[n - 1] == f then 1 else 0)
  }

  ghost function Tally(fates: seq<Fate>, n: nat): Counts
    requires n <= |fates|
  {
    Counts(0, Times(fates, n, Written), Times(fates, n, Limited) + Times(fates, n, DroppedAsFinal), Times(fates, n, Nulled), Times(fates, n, Malformed))
  }

  ghost function CountsOf(h: Shard): Counts
    requires ShardOk(h)
  {
    Tally(h.fates, h.handled).(consumed := Delivered(h.ring, h.read))
  }

  /** The counters of the first `n` shards. */
  ghost function TotalsTo(shards: seq<Shard>, n: nat): Counts
    requires n <= |shards| && forall s | 0 <= s < |shards| :: ShardOk(shards[s])
  {
    if n == 0 then Counts(0, 0, 0, 0, 0) else TotalsTo(shards, n - 1).Plus(CountsOf(shards[n - 1]))
  }

  ghost function Totals(shards: seq<Shard>): Counts
    requires forall s | 0 <= s < |shards| :: ShardOk(shards[s])
  {
    TotalsTo(shards, |shards|)
  }

  /** Records among the first `n` that some counter counts. */
  ghost function Counted(fates: seq<Fate>, n: nat): nat
    requires n <= |fates|
  {
    if n == 0 then 0 else Counted(fates, n - 1) + (if fates[n - 1].Lost? || fates[n - 1].Skipped? then 0 else 1)
  }

  lemma {:induction false} TallyCounts(fates: seq<Fate>, n: nat)
    requires n <= |fates|
    ensures Tally(fates, n).Accounted() == Counted(fates, n)
    ensures AllGood(fates) ==> Tally(fates, n).malformed == 0
    decreases n
  {
    if n > 0 {
      TallyCounts(fates, n - 1);
    }
  }

  lemma {:induction false} CountedBounded(ring: seq<Rec>, fates: seq<Fate>, n: nat)
    requires n <= |fates| <= |ring| && FatesFit(ring, fates)
    ensures Counted(fates, n) <= Delivered(ring, n)
    ensures AllGood(fates) ==> Counted(fates, n) == Delivered(ring, n)
    decreases n
  {
    if n > 0 {
      CountedBounded(ring, fates, n - 1);
      assert fates[n - 1].Skipped? <==> ring[n - 1].phase.Discarded?;
      assert AllGood(fates) ==> Good(fates[n - 1]);
    }
  }

  ghost predicate FatesFit(ring: seq<Rec>, fates: seq<Fate>)
    requires |fates| <= |ring|
  {
    forall q | 0 <= q < |fates| :: fates[q].Skipped? <==> ring[q].phase.Discarded?
  }

  lemma {:induction false} DeliveredGrows(ring: seq<Rec>, m: nat, n: nat)
    requires m <= n <= |ring|
    ensures Delivered(ring, m) <= Delivered(ring, n)
    decreases n
  {
    if m < n {
      DeliveredGrows(ring, m, n - 1);
    }
  }

  /** A shard whose every read record went through the sink as intended. */
  ghost predicate Drained(h: Shard) {
    h.handled == h.read && AllGood(h.fates)
  }

  /** Nothing malformed, and consumed is written, limited or thrown away on request. */
  ghost predicate Balances(c: Counts) {
    c.malformed == 0 && c.consumed == c.written + c.limited + c.nulled
  }

  lemma {:induction false} ShardAdds(h: Shard)
    requires ShardOk(h)
    ensures CountsOf(h).Accounted() <= CountsOf(h).consumed
    ensures Drained(h) ==> Balances(CountsOf(h))
  {
    CountedBounded(h.ring, h.fates, h.handled);
    TallyCounts(h.fates, h.handled);
    DeliveredGrows(h.ring, h.handled, h.read);
  }

  lemma {:induction false} PlusAdds(a: Counts, b: Counts)
    requires a.Accounted() <= a.consumed && b.Accounted() <= b.consumed
    ensures a.Plus(b).Accounted() <= a.Plus(b).consumed
    ensures Balances(a) && Balances(b) ==> Balances(a.Plus(b))
  {
  }

  lemma {:induction false} TotalsAdd(shards: seq<Shard>, n: nat)
    requires n <= |shards| && forall s | 0 <= s < |shards| :: ShardOk(shards[s])
    ensures TotalsTo(shards, n).Accounted() <= TotalsTo(shards, n).consumed
    ensures (forall s | 0 <= s < n :: Drained(shards[s])) ==> Balances(TotalsTo(shards, n))
    decreases n
  {
    if n > 0 {
      TotalsAdd(shards, n - 1);
      ShardAdds(shards[n - 1]);
      PlusAdds(TotalsTo(shards, n - 1), CountsOf(shards[n - 1]));
    }
  }

  /** In every run the counters never claim more than was consumed. */
  lemma {:induction false} NeverOverclaims(shards: nat, acts: seq<Action>)
    requires Plays(Start(shards), acts)
    ensures Inv(After(Start(shards), acts))
    ensures var w := After(Start(shards), acts); Totals(w.shards).Accounted() <= Totals(w.shards).consumed
  {
    RunKeeps(Start(shards), acts);
    TotalsAdd(After(Start(shards), acts).shards, |After(Start(shards), acts).shards|);
  }

  /** Once producers are quiet and every reader has left without an error, every ring is read to its end and
      every delivered record is written, limited or thrown away on request. */
  lemma {:induction false} DrainIsComplete(shards: nat, acts: seq<Action>)
    requires Plays(Start(shards), acts)
    ensures Inv(After(Start(shards), acts))
    ensures var w := After(Start(shards), acts);
      !w.err && AllExited(w) ==>
        (forall s | 0 <= s < |w.shards| :: DrainedToEnd(w.shards[s])) && Balances(Totals(w.shards))
  {
    RunKeeps(Start(shards), acts);
    ExitedIsDrained(After(Start(shards), acts));
  }

  lemma {:induction false} ExitedIsDrained(w: World)
    requires ShardsOk(w) && EndOk(w) && ErrorsShow(w)
    ensures !w.err && AllExited(w) ==>
      (forall s | 0 <= s < |w.shards| :: DrainedToEnd(w.shards[s])) && Balances(Totals(w.shards))
  {
    if !w.err && AllExited(w) {
      ExitedShards(w);
      TotalsBalance(w.shards);
    }
  }

  lemma {:induction false} TotalsBalance(shards: seq<Shard>)
    requires forall s | 0 <= s < |shards| :: ShardOk(shards[s]) && DrainedToEnd(shards[s])
    ensures Balances(Totals(shards))
  {
    TotalsAdd(shards, |shards|);
  }

  ghost predicate DrainedToEnd(h: Shard) {
    Drained(h) && h.read == |h.ring|
  }

  lemma {:induction false} ExitedShards(w: World)
    requires EndOk(w) && ErrorsShow(w) && !w.err && AllExited(w)
    ensures forall s | 0 <= s < |w.shards| :: DrainedToEnd(w.shards[s])
  {
    forall s | 0 <= s < |w.shards|
      ensures DrainedToEnd(w.shards[s])
    {
      ShardGood(w, s);
      ExitedShard(w, s);
    }
  }

  ghost predicate AllExited(w: World) {
    forall s | 0 <= s < |w.shards| :: s in w.exited
  }

  lemma {:induction false} ExitedShard(w: World, s: nat)
    requires EndOk(w) && AllExited(w) && s < |w.shards|
    ensures w.shards[s].handled == w.shards[s].read == |w.shards[s].ring|
  {
    assert s in w.exited;
  }

  lemma {:induction false} ShardGood(w: World, s: nat)
    requires ErrorsShow(w) && !w.err && s < |w.shards|
    ensures AllGood(w.shards[s].fates)
  {
  }

  datatype Status = AllWritten | CutByLimit | ThrownAway | Incomplete

  /** The status line of the capture report.  `lost` sums the kernel side's failure and hold counters. */
  function ReportStatus(submitted: nat, lost: nat, failed: bool, c: Counts): Status {
    if failed || c.malformed > 0 || c.consumed != c.written + c.limited + c.nulled + c.malformed || lost > 0 || submitted != c.consumed
    then Incomplete
    else if c.nulled > 0 then ThrownAway
    else if c.limited > 0 then CutByLimit
    else AllWritten
  }

  /** In every run, with any kernel counters and any failure, the report says complete exactly when nothing failed or
      was lost and every submitted record was consumed and written.  A drained, error-free capture that lost nothing
      never reports itself incomplete.  Any other status accounts for every record, and says discarded if one was, or
      else limited if one was. */
  lemma {:induction false} ReportIsTruthful(shards: nat, acts: seq<Action>, submitted: nat, lost: nat, failed: bool)
    requires Plays(Start(shards), acts)
    ensures Inv(After(Start(shards), acts))
    ensures var w := After(Start(shards), acts);
      StatusIsTrue(Totals(w.shards), submitted, lost, failed) &&
      (!w.err && AllExited(w) && submitted == Totals(w.shards).consumed ==> ReportStatus(submitted, 0, false, Totals(w.shards)) != Incomplete)
  {
    NeverOverclaims(shards, acts);
    DrainIsComplete(shards, acts);
    StatusMeans(Totals(After(Start(shards), acts).shards), submitted, lost, failed);
  }

  ghost predicate StatusIsTrue(c: Counts, submitted: nat, lost: nat, failed: bool) {
    var status := ReportStatus(submitted, lost, failed, c);
    (status == AllWritten <==> !failed && lost == 0 && submitted == c.consumed == c.written) &&
    (status != Incomplete ==> !failed && lost == 0 && submitted == c.written + c.limited + c.nulled) &&
    (status == ThrownAway ==> c.nulled > 0) && (status == CutByLimit ==> c.limited > 0 && c.nulled == 0)
  }

  lemma {:induction false} StatusMeans(c: Counts, submitted: nat, lost: nat, failed: bool)
    requires c.Accounted() <= c.consumed
    ensures StatusIsTrue(c, submitted, lost, failed)
    ensures Balances(c) && submitted == c.consumed ==> ReportStatus(submitted, 0, false, c) != Incomplete
  {
  }
}
