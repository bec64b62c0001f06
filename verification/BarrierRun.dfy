/** The protocol can run to its end: a capture of one record that is written, its tag completed and merged, and every
    reader drained. */
module BarrierRun {
  import opened Barrier

  const TAG: Tag := 5

  function Steps(): seq<Action> {
    [ Begin, Gate(0, TAG), Reserve(0, TAG, 0), Commit(0, 0, 0, true), Tombstone(TAG), WaitForProducers(TAG), End(0), ProducersDone(TAG),
      TakeWatermark(TAG), StartPoll(TAG), Read(0), Handle(0, Write), Acknowledge(0), PollShard(TAG), Finalize(TAG), Barrier.Merge(TAG),
      Detach, Stop, LeaveShard(0) ]
  }

  /** The world before step `n`. */
  ghost function At(n: nat): World {
    World(if n < 5 then {} else {TAG},
          if n == 0 || n >= 7 then map[] else if n == 1 then map[0 := {}] else map[0 := {TAG}],
          if n == 0 then 0 else 1,
          [Shard(if n < 3 then [] else [Rec(TAG, if n == 3 then Busy else Committed, 0)],
                 if n < 11 then 0 else 1, if n < 12 then 0 else 1, if n < 12 then [] else [Written], if n < 13 then 0 else 1)],
          if n < 5 then map[] else map[TAG := StageAt(n)],
          false, n >= 17, n >= 18, if n < 18 then [] else [1], if n < 19 then {} else {0})
  }

  ghost function StageAt(n: nat): Stage {
    if n == 5 then Tombstoned
    else if n <= 7 then Grace({0})
    else if n == 8 then Snapshot([])
    else if n == 9 then Snapshot([1])
    else if n <= 13 then Polling([1], 0)
    else if n == 14 then Polling([1], 1)
    else if n == 15 then Final
    else Merged
  }

  /** Worlds are equal part by part. */
  lemma {:induction false} SameWorld(n: nat)
    requires n < 19 && Enabled(At(n), Steps()[n])
    requires SameParts(Next(At(n), Steps()[n]), At(n + 1))
    ensures Next(At(n), Steps()[n]) == At(n + 1)
  {
    SameWorlds(Next(At(n), Steps()[n]), At(n + 1));
  }

  lemma {:induction false} SameWorlds(w: World, u: World)
    requires SameParts(w, u)
    ensures w == u
  {
    assert w.shards == u.shards;
    forall t | t in w.stages
      ensures w.stages[t] == u.stages[t]
    {
      assert SameStage(w.stages[t], u.stages[t]);
    }
    assert w.stages == u.stages;
  }

  ghost predicate SameParts(w: World, u: World) {
    w.closed == u.closed && w.running == u.running && w.started == u.started && |w.shards| == |u.shards| == 1 &&
    SameShard(w.shards[0], u.shards[0]) && w.stages.Keys == u.stages.Keys &&
    (forall t | t in w.stages :: SameStage(w.stages[t], u.stages[t])) &&
    w.err == u.err && w.detached == u.detached && w.stopped == u.stopped && w.finals == u.finals && w.exited == u.exited
  }

  ghost predicate SameShard(h: Shard, k: Shard) {
    h.ring == k.ring && h.read == k.read && h.handled == k.handled && h.fates == k.fates && h.acked == k.acked
  }

  ghost predicate SameStage(s: Stage, t: Stage) {
    match s
    case Grace(waiting) => t.Grace? && waiting == t.waiting
    case Snapshot(targets) => t.Snapshot? && targets == t.targets
    case Polling(targets, seen) => t.Polling? && targets == t.targets && seen == t.seen
    case _ => s == t
  }

  lemma {:induction false} PassesGate(n: nat)
    requires 0 <= n < 2
    ensures Enabled(At(n), Steps()[n]) && Next(At(n), Steps()[n]) == At(n + 1)
  {
    if n == 1 {
      assert Next(At(1), Steps()[1]).running[0] == {TAG};
    }
    SameWorld(n);
  }

  lemma {:induction false} WritesRecord(n: nat)
    requires 2 <= n < 4
    ensures Enabled(At(n), Steps()[n]) && Next(At(n), Steps()[n]) == At(n + 1)
  {
    SameWorld(n);
  }

  lemma {:induction false} ClosesTag(n: nat)
    requires 4 <= n < 7
    ensures Enabled(At(n), Steps()[n]) && Next(At(n), Steps()[n]) == At(n + 1)
  {
    SameWorld(n);
  }

  lemma {:induction false} TakesTargets(n: nat)
    requires 7 <= n < 10
    ensures Enabled(At(n), Steps()[n]) && Next(At(n), Steps()[n]) == At(n + 1)
  {
    SameWorld(n);
  }

  lemma {:induction false} ReadsRecord(n: nat)
    requires 10 <= n < 12
    ensures Enabled(At(n), Steps()[n]) && Next(At(n), Steps()[n]) == At(n + 1)
  {
    SameWorld(n);
  }

  lemma {:induction false} Acknowledges(n: nat)
    requires 12 <= n < 14
    ensures Enabled(At(n), Steps()[n]) && Next(At(n), Steps()[n]) == At(n + 1)
  {
    SameWorld(n);
  }

  lemma {:induction false} Finishes(n: nat)
    requires 14 <= n < 17
    ensures Enabled(At(n), Steps()[n]) && Next(At(n), Steps()[n]) == At(n + 1)
  {
    SameWorld(n);
  }

  lemma {:induction false} Drains(n: nat)
    requires 17 <= n < 19
    ensures Enabled(At(n), Steps()[n]) && Next(At(n), Steps()[n]) == At(n + 1)
  {
    SameWorld(n);
  }

  lemma {:induction false} StepsTo(n: nat)
    requires n < 19
    ensures Enabled(At(n), Steps()[n]) && Next(At(n), Steps()[n]) == At(n + 1)
  {
    if n < 2 {
      PassesGate(n);
    } else if n < 4 {
      WritesRecord(n);
    } else if n < 7 {
      ClosesTag(n);
    } else if n < 10 {
      TakesTargets(n);
    } else if n < 12 {
      ReadsRecord(n);
    } else if n < 14 {
      Acknowledges(n);
    } else if n < 17 {
      Finishes(n);
    } else {
      Drains(n);
    }
  }

  lemma {:induction false} PlaysFrom(n: nat)
    requires n <= 19
    ensures Plays(At(n), Steps()[n..]) && After(At(n), Steps()[n..]) == At(19)
    decreases 19 - n
  {
    if n < 19 {
      StepsTo(n);
      PlaysFrom(n + 1);
      assert Steps()[n..][0] == Steps()[n] && Steps()[n..][1..] == Steps()[n + 1..];
    }
  }

  /** The tag is final, its record written, and all readers are out without an error. */
  ghost predicate Complete(w: World) {
    IsFinal(w, TAG) && w.stopped && AllExited(w) && !w.err && |w.shards| == 1 && w.shards[0].fates == [Written]
  }

  lemma {:induction false} AtTheEnd()
    ensures Complete(At(19))
  {
  }

  lemma {:induction false} AtTheStart()
    ensures Start(1) == At(0)
  {
    SameWorlds(Start(1), At(0));
  }

  ghost predicate RunsTo(acts: seq<Action>, w: World) {
    Plays(Start(1), acts) && After(Start(1), acts) == w
  }

  /** Some run gets there. */
  lemma {:induction false} CaptureCompletes()
    ensures exists acts: seq<Action>, w: World :: RunsTo(acts, w) && Complete(w)
  {
    AtTheStart();
    AtTheEnd();
    PlaysFrom(0);
    assert RunsTo(Steps()[0..], At(19));
  }
}
