/** Returns, resumed helpers and callbacks run again keep the invariant. */
module CtxReturn {
  import opened Machine
  import opened CtxDomain
  import opened CtxAnalyze
  import opened CtxProve
  import opened CtxMeaning
  import opened CtxKernel
  import opened CtxTransfer
  import opened CtxCalls
  import opened CtxRuns
  import opened CtxSteps
  import opened CtxEnter
  import opened CtxPush

  // ---------------------------------------------------------------- one frame less

  ghost function Popped(b: Book): Book
    requires |b.fn| > 0 && |b.seal| > 0
  {
    Book(b.fn[..|b.fn| - 1], b.seal[..|b.seal| - 1])
  }

  lemma {:induction false} AllowedShrinks(v: Value, j: nat, seal: seq<bool>)
    requires 0 < |seal| && j < |seal|
    ensures Allowed(v, j, seal[..|seal| - 1]) <==> Allowed(v, j, seal)
  {
  }

  lemma {:induction false} FrameShrinks(k: World, b: Book, m: Memory, j: nat)
    requires |b.fn| == |b.seal| + 1 && j < |b.seal| && FrameOk(k, b, m, j)
    ensures FrameOk(k, Popped(b), m, j)
  {
    forall o: int
      ensures Allowed(m(Frame(j), o).v, j, Popped(b).seal)
    {
      assert Allowed(m(Frame(j), o).v, j, b.seal);
      AllowedShrinks(m(Frame(j), o).v, j, b.seal);
    }
  }

  lemma {:induction false} SavedShrinks(k: World, b: Book, saved: Saved, j: nat)
    requires |b.fn| == |b.seal| + 1 && j + 1 < |b.seal| && b.fn[j] < |k.w.fns| && SavedOk(k, b, saved, j)
    ensures SavedOk(k, Popped(b), saved, j)
  {
    AllowedShrinks(saved.r6, j, b.seal);
    AllowedShrinks(saved.r7, j, b.seal);
    AllowedShrinks(saved.r8, j, b.seal);
    AllowedShrinks(saved.r9, j, b.seal);
  }

  lemma {:induction false} WaitShrinks(k: World, c: Config, c': Config, b: Book, j: nat)
    requires BookOk(k, c, b) && |c.s.calls| > 0 && BookOk(k, c', Popped(b)) && j + 1 < |c.s.calls| && WaitOk(k, c, b, j)
    requires c'.s.calls == c.s.calls[..|c.s.calls| - 1] && c'.s.mem == c.s.mem && c'.low == c.low[..|c.s.calls|]
    ensures WaitOk(k, c', Popped(b), j)
  {
  }

  lemma {:induction false} PopBase(k: World, c: Config, c': Config, b: Book)
    requires Base(k, c, b) && |c.s.calls| > 0
    requires c'.s.calls == c.s.calls[..|c.s.calls| - 1] && c'.s.mem == c.s.mem && c'.low == c.low[..|c.s.calls|]
    ensures Base(k, c', Popped(b))
  {
    var b', d := Popped(b), |c.s.calls|;
    forall j | 0 <= j < d
      ensures FrameOk(k, b', c.s.mem, j)
    {
      assert FrameOk(k, b, c.s.mem, j);
      FrameShrinks(k, b, c.s.mem, j);
    }
    forall j | 0 <= j < d - 1
      ensures SavedOk(k, b', c'.s.calls[j], j) && WaitOk(k, c', b', j)
    {
      assert SavedOk(k, b, c.s.calls[j], j) && WaitOk(k, c, b, j);
      SavedShrinks(k, b, c.s.calls[j], j);
      WaitShrinks(k, c, c', b, j);
    }
  }

  // ---------------------------------------------------------------- the caller continues

  /** The result is of the kind the caller's analysis gave it. */
  ghost predicate ResultOk(k: World, c: Config, b: Book, v: Value)
    requires BookOk(k, c, b) && |c.s.calls| > 0
  {
    var d := |c.s.calls|;
    Allowed(v, d, b.seal) && !PointsInto(v, d) && (c.s.calls[d - 1].resume.Token? ==> !PointsInto(v, d - 1))
  }

  lemma {:induction false} ResultMeans(k: World, c: Config, b: Book, v: Value, a: Known)
    requires BookOk(k, c, b) && |c.s.calls| > 0 && ResultOk(k, c, b, v) && Shaped(a)
    requires !a.regs[0].TheCtx? && !a.regs[0].InFrame?
    requires var saved, j := c.s.calls[|c.s.calls| - 1], |c.s.calls| - 1;
      (saved.resume.Plain? ==> a.regs[0].Any? || b.seal[j])
    ensures Means(a.regs[0], v, |c.s.calls| - 1)
  {
  }

  lemma {:induction false} CallerTop(k: World, c: Config, c': Config, b: Book, v: Value)
    requires Base(k, c, b) && |c.s.calls| > 0 && ResultOk(k, c, b, v)
    requires var d := |c.s.calls|; var saved := c.s.calls[d - 1];
      c'.s.pc == saved.ret && c'.s.regs == ReturnRegs(v, saved, d - 1) && c'.s.mem == c.s.mem &&
      c'.s.calls == c.s.calls[..d - 1] && c'.low == c.low[..d]
    requires BookOk(k, c', Popped(b))
    ensures TopOk(k, c', Popped(b))
  {
    var j := |c.s.calls| - 1;
    var f := b.fn[j];
    assert WaitOk(k, c, b, j);
    if k.out[f].Proven? {
      var states, i := k.out[f].states, IndexOf(k.w.p, c.s.calls[j].ret) - 1;
      var a := After(k.w, states[i], i);
      ResultMeans(k, c, b, v, a);
      assert RegsHold(a, ReturnRegs(v, c.s.calls[j], j), j);
      DescribesUp(a, states[i + 1], c'.s.regs, c'.s.mem, j);
    }
  }

  lemma {:induction false} CallerLocated(k: World, c: Config, c': Config, b: Book, v: Value)
    requires BookOk(k, c, b) && |c.s.calls| > 0 && ResultOk(k, c, b, v) && BookOk(k, c', Popped(b))
    requires SavedOk(k, b, c.s.calls[|c.s.calls| - 1], |c.s.calls| - 1)
    requires var d := |c.s.calls|; var saved := c.s.calls[d - 1];
      c'.s.pc == saved.ret && c'.s.regs == ReturnRegs(v, saved, d - 1) && |c'.s.calls| == d - 1
    ensures Located(k, c', Popped(b))
  {
    var d, b' := |c.s.calls|, Popped(b);
    var saved := c.s.calls[d - 1];
    AllowedShrinks(saved.r6, d - 1, b.seal);
    AllowedShrinks(saved.r7, d - 1, b.seal);
    AllowedShrinks(saved.r8, d - 1, b.seal);
    AllowedShrinks(saved.r9, d - 1, b.seal);
    assert Allowed(v, d - 1, b'.seal);
  }

  lemma {:induction false} CallerContinues(k: World, c: Config, c': Config, b: Book, v: Value)
    requires Base(k, c, b) && |c.s.calls| > 0 && ResultOk(k, c, b, v)
    requires var d := |c.s.calls|; var saved := c.s.calls[d - 1];
      c'.s.pc == saved.ret && c'.s.regs == ReturnRegs(v, saved, d - 1) && c'.s.mem == c.s.mem &&
      c'.s.calls == c.s.calls[..d - 1] && c'.low == c.low[..d]
    ensures Inv(k, c', Popped(b))
  {
    PopBase(k, c, c', b);
    CallerTop(k, c, c', b, v);
    assert SavedOk(k, b, c.s.calls[|c.s.calls| - 1], |c.s.calls| - 1);
    CallerLocated(k, c, c', b, v);
  }

  // ---------------------------------------------------------------- resumed helpers

  lemma {:induction false} ResumeKeepsBase(k: World, c: Config, b: Book, m': Memory)
    requires Base(k, c, b) && |c.s.calls| > 0 && c.s.calls[|c.s.calls| - 1].resume.Token?
    requires KernelWrites(c.s.mem, m', c.low[..|c.s.calls|], k.grants.of(c.s.calls[|c.s.calls| - 1].resume.k))
    ensures Base(k, c.(s := c.s.(mem := m')), b)
  {
    var d := |c.s.calls|;
    var token := c.s.calls[d - 1].resume.k;
    assert SavedOk(k, b, c.s.calls[d - 1], d - 1);
    KernelTolerable(k, c, b, m', c.low[..d], k.grants.of(token));
    BaseSurvives(k, c, c.(s := c.s.(mem := m')), b);
  }

  ghost function Retopped(b: Book, f: nat): Book
    requires |b.fn| > 0
  {
    Book(b.fn[..|b.fn| - 1] + [f], b.seal)
  }

  lemma {:induction false} WaitRetops(k: World, c: Config, c': Config, b: Book, f: nat, j: nat)
    requires BookOk(k, c, b) && |c.s.calls| > 0 && BookOk(k, c', Retopped(b, f)) && j < |c.s.calls| && WaitOk(k, c, b, j)
    requires var d := |c.s.calls|;
      c.s.calls[d - 1].resume.Token? && c'.s.mem == c.s.mem && c'.low == c.low[..d] + [0] && |c'.s.calls| == d &&
      c'.s.calls[..d - 1] == c.s.calls[..d - 1] && c'.s.calls[d - 1].resume.Token? &&
      c'.s.calls[d - 1] == c.s.calls[d - 1].(resume := c'.s.calls[d - 1].resume)
    ensures WaitOk(k, c', Retopped(b, f), j)
  {
    var d, b' := |c.s.calls|, Retopped(b, f);
    assert b'.fn[j] == b.fn[j] && c'.low[j] == c.low[j];
    if j < d - 1 {
      assert c'.s.calls[j] == c'.s.calls[..d - 1][j] == c.s.calls[j];
    } else {
      assert forall v: Value :: ReturnRegs(v, c'.s.calls[j], j) == ReturnRegs(v, c.s.calls[j], j);
    }
  }

  lemma {:induction false} RetopBase(k: World, c: Config, c': Config, b: Book, f: nat)
    requires Base(k, c, b) && |c.s.calls| > 0 && 0 < f < |k.w.fns| && FreshFrame(c.s.mem, |c.s.calls|)
    requires var d := |c.s.calls|; var saved := c.s.calls[d - 1];
      saved.resume.Token? && c'.s.mem == c.s.mem && c'.low == c.low[..d] + [0] && |c'.s.calls| == d &&
      c'.s.calls[..d - 1] == c.s.calls[..d - 1] && c'.s.calls[d - 1].resume.Token? &&
      c'.s.calls[d - 1] == saved.(resume := c'.s.calls[d - 1].resume) &&
      k.grants.of(c'.s.calls[d - 1].resume.k) <= k.grants.of(saved.resume.k)
    ensures Base(k, c', Retopped(b, f))
  {
    var d, b' := |c.s.calls|, Retopped(b, f);
    forall j | 0 <= j <= d
      ensures FrameOk(k, b', c'.s.mem, j)
    {
      assert FrameOk(k, b, c.s.mem, j);
      if j == d {
        FreshIsOk(k, b', c'.s.mem, j);
      }
    }
    forall j | 0 <= j < d
      ensures SavedOk(k, b', c'.s.calls[j], j) && WaitOk(k, c', b', j)
    {
      assert SavedOk(k, b, c.s.calls[j], j) && WaitOk(k, c, b, j);
      if j < d - 1 {
        assert c'.s.calls[j] == c'.s.calls[..d - 1][j] == c.s.calls[j];
      }
      WaitRetops(k, c, c', b, f, j);
    }
  }

  /** The frame a callback left, once its stale bytes are data to the next one. */
  lemma {:induction false} RefreshTopKeepsBase(k: World, c: Config, b: Book, m': Memory)
    requires Base(k, c, b) && Refreshed(c.s.mem, m', |c.s.calls|)
    ensures Base(k, WithMemory(c, m'), b)
  {
    forall j | 0 <= j < |b.fn|
      ensures FrameOk(k, b, m', j)
    {
      assert FrameOk(k, b, c.s.mem, j);
      if j == |c.s.calls| {
        FreshIsOk(k, b, m', j);
      } else {
        SameFrameBytes(k, b, c.s.mem, m', j);
      }
    }
    BaseSurvives(k, c, WithMemory(c, m'), b);
  }

  lemma {:induction false} CallbackAgain(k: World, c: Config, c': Config, b: Book, args: seq<Value>) returns (b': Book)
    requires WorldOk(k) && Base(k, c, b) && |c.s.calls| > 0 && FreshFrame(c.s.mem, |c.s.calls|)
    requires var d := |c.s.calls|; var saved := c.s.calls[d - 1];
      saved.resume.Token? && c'.s.mem == c.s.mem && c'.low == c.low[..d] + [0] && |c'.s.calls| == d &&
      c'.s.calls[..d - 1] == c.s.calls[..d - 1] && c'.s.calls[d - 1].resume.Token? &&
      c'.s.calls[d - 1] == saved.(resume := c'.s.calls[d - 1].resume) &&
      k.grants.of(c'.s.calls[d - 1].resume.k) <= k.grants.of(saved.resume.k) &&
      |args| == 5 && ArgsFrom(args, k.grants.of(saved.resume.k)) && CallbackAt(k.w, c'.s.pc) &&
      c'.s.regs == EntryRegs(args[0], args[1], args[2], args[3], args[4], d)
    ensures Inv(k, c', b')
  {
    var d := |c.s.calls|;
    var f := CallbackFn(k, c'.s.pc);
    b' := Retopped(b, f);
    RetopBase(k, c, c', b, f);
    assert SavedOk(k, b, c.s.calls[d - 1], d - 1);
    DrawnAllowed(args, k.grants.of(c.s.calls[d - 1].resume.k), d, b'.seal);
  }
}
