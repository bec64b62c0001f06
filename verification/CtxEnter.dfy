/** Helper calls, callbacks and calls to other functions keep the invariant. */
module CtxEnter {
  import opened Machine
  import opened CtxDomain
  import opened CtxAnalyze
  import opened CtxProve
  import opened CtxMeaning
  import opened CtxKernel
  import opened CtxTransfer
  import opened CtxCalls
  import opened CtxRuns
  import opened CtxSteps

  // ---------------------------------------------------------------- what the kernel writes

  lemma {:induction false} KernelKeepsFrame(k: World, b: Book, m: Memory, m': Memory, low: seq<int>, writes: set<nat>, j: nat)
    requires j < |b.fn| && FrameOk(k, b, m, j) && KernelWrites(m, m', low, writes)
    ensures FrameOk(k, b, m', j)
  {
    forall o: int
      ensures Allowed(m'(Frame(j), o).v, j, b.seal)
      ensures Tracked(m'(Frame(j), o).v) ==> (o - m'(Frame(j), o).k) % 8 == 0
    {
      assert Allowed(m(Frame(j), o).v, j, b.seal);
      assert m'(Frame(j), o) == m(Frame(j), o) || !Tracked(m'(Frame(j), o).v);
    }
  }

  lemma {:induction false} KernelAliasOnly(m: Memory, m': Memory, low: seq<int>, writes: set<nat>, j: nat)
    requires KernelWrites(m, m', low, writes) && j < |low| && j !in writes
    ensures AliasOnly(m, m', j, low[j])
  {
  }

  lemma {:induction false} KernelTolerable(k: World, c: Config, b: Book, m': Memory, low: seq<int>, writes: set<nat>)
    requires Base(k, c, b) && KernelWrites(c.s.mem, m', low, writes) && |low| >= |c.s.calls|
    requires forall j | 0 <= j < |c.s.calls| :: low[j] == c.low[j]
    requires forall j | 0 <= j < |c.s.calls| && Guard(k, b, c.s.calls, j) :: j !in writes
    ensures Tolerable(k, c, b, m')
  {
    forall j | 0 <= j < |b.fn|
      ensures FrameOk(k, b, m', j)
    {
      assert FrameOk(k, b, c.s.mem, j);
      KernelKeepsFrame(k, b, c.s.mem, m', low, writes, j);
    }
    forall j | 0 <= j < |c.s.calls| && Guard(k, b, c.s.calls, j)
      ensures AliasOnly(c.s.mem, m', j, c.low[j])
    {
      KernelAliasOnly(c.s.mem, m', low, writes, j);
    }
  }

  /** The running function makes a call, so it is not write-free, and guarded frames are sealed ones. */
  lemma {:induction false} CallerNotFree(k: World, c: Config, b: Book, i: nat, j: nat)
    requires BookOk(k, c, b) && Located(k, c, b) && i == IndexOf(k.w.p, c.s.pc) && IsCall(k.w.p[i])
    requires j < |c.s.calls| && Guard(k, b, c.s.calls, j)
    ensures b.seal[j]
  {
    assert !WritesOwnStackOnly(k.w.p[i]);
  }

  /** Arguments come from registers, so they reach only unsealed frames. */
  lemma {:induction false} ArgsUnsealed(vs: seq<Value>, d: nat, seal: seq<bool>, e: nat)
    requires AllAllowed(vs, d, seal) && e in FramesIn(vs)
    ensures e <= d && (e < d && e < |seal| ==> !seal[e])
  {
    var i :| 0 <= i < |vs| && vs[i].Ptr? && vs[i].region.Frame? && vs[i].region.depth == e;
    assert Allowed(vs[i], d, seal);
  }

  lemma {:induction false} CallArgsAllowed(k: World, c: Config, b: Book, ins: Insn)
    requires BookOk(k, c, b) && Located(k, c, b)
    ensures AllAllowed(CallOut(k.env, ins, c.s.regs).args, |c.s.calls|, b.seal)
  {
    var args := CallOut(k.env, ins, c.s.regs).args;
    forall n | 0 <= n < |args|
      ensures Allowed(args[n], |c.s.calls|, b.seal)
    {
      if !ins.op.LoadLegacy? {
        assert args[n] == c.s.regs[n + 1];
      }
    }
  }

  /** What a helper, kernel function or legacy load leaves of memory. */
  lemma {:induction false} ExternalTolerable(k: World, c: Config, b: Book, i: nat)
    requires WorldOk(k) && Inv(k, c, b) && i == IndexOf(k.w.p, c.s.pc) && (IsExternal(k.w.p[i]) || k.w.p[i].op.LoadLegacy?)
    requires CallOutLaw(k.env, k.w, k.L, k.grants, c, k.w.p[i])
    ensures var m', low := k.env.ext(CallOut(k.env, k.w.p[i], c.s.regs), c.s.mem).mem, LowNow(k.env, c, k.w.p[i]);
      Tolerable(k, c, b, m') && AliasOnly(c.s.mem, m', |c.s.calls|, low[|c.s.calls|]) && DEEPEST <= low[|c.s.calls|] <= 0
  {
    var ins, d := k.w.p[i], |c.s.calls|;
    var call, low := CallOut(k.env, ins, c.s.regs), LowNow(k.env, c, ins);
    var m' := k.env.ext(call, c.s.mem).mem;
    var writes := if ins.op.LoadLegacy? then {} else FramesIn(call.args) - {d};
    assert KernelWrites(c.s.mem, m', low, writes);
    forall j | 0 <= j < d && Guard(k, b, c.s.calls, j)
      ensures j !in writes
    {
      if j in writes {
        CallArgsAllowed(k, c, b, ins);
        ArgsUnsealed(call.args, d, b.seal, j);
        CallerNotFree(k, c, b, i, j);
      }
    }
    KernelTolerable(k, c, b, m', low, writes);
    KernelAliasOnly(c.s.mem, m', low, writes, d);
  }

  // ---------------------------------------------------------------- calls that return at once

  lemma {:induction false} ReturnRegsAllowed(k: World, c: Config, b: Book, v: Value, ret: int, resume: Resume)
    requires BookOk(k, c, b) && Located(k, c, b) && Allowed(v, |c.s.calls|, b.seal)
    ensures AllAllowed(ReturnRegs(v, SaveFrame(c.s, ret, resume), |c.s.calls|), |c.s.calls|, b.seal)
  {
    var d := |c.s.calls|;
    assert forall r | 6 <= r <= 9 :: Allowed(c.s.regs[r], d, b.seal);
  }

  lemma {:induction false} LegacyDescribes(a: Known, s: State, s': State, low: int, v: Value)
    requires Describes(a, s, low) && s'.regs == ReturnRegs(v, SaveFrame(s, 0, Plain), |s.calls|) && !Tracked(v)
    requires |s'.calls| == |s.calls| && forall o: int :: s'.mem(Frame(|s.calls|), o) == s.mem(Frame(|s.calls|), o)
    ensures Describes(ForgetArgs(a), s', low)
  {
    var d := |s.calls|;
    forall n | 0 <= n < SLOTS
      ensures SlotHolds(a.slots[n], SlotBytes(s'.mem, d, n), d)
    {
      SlotUnchanged(s.mem, s'.mem, d, n);
      assert SlotHolds(a.slots[n], SlotBytes(s.mem, d, n), d);
    }
  }

  lemma {:induction false} FloorHolds(k: World, c: Config, a: Known, ins: Insn)
    requires |c.low| == |c.s.calls| + 1 && Describes(a, c.s, c.low[|c.s.calls|]) && IsExternal(ins)
    ensures FloorOver(a, 5) <= LowNow(k.env, c, ins)[|c.s.calls|]
  {
    FloorBelowLow(a, c.s.regs, |c.s.calls|, c.low[|c.s.calls|], Arity(k.env, ins));
  }

  lemma {:induction false} ReturnedDescribes(k: World, c: Config, c': Config, b: Book, i: nat, a: Known)
    requires WorldOk(k) && Inv(k, c, b) && i == IndexOf(k.w.p, c.s.pc) && (IsExternal(k.w.p[i]) || k.w.p[i].op.LoadLegacy?)
    requires CallOutLaw(k.env, k.w, k.L, k.grants, c, k.w.p[i]) && Describes(a, c.s, c.low[|c.s.calls|])
    requires var out := k.env.ext(CallOut(k.env, k.w.p[i], c.s.regs), c.s.mem);
      out.Done? && c'.s.mem == out.mem && c'.s.calls == c.s.calls && c'.low == LowNow(k.env, c, k.w.p[i]) &&
      c'.s.regs == ReturnRegs(out.r0, SaveFrame(c.s, c.s.pc + 1, Plain), |c.s.calls|)
    ensures Describes(After(k.w, a, i), c'.s, c'.low[|c.s.calls|])
  {
    var ins, d := k.w.p[i], |c.s.calls|;
    var out := k.env.ext(CallOut(k.env, ins, c.s.regs), c.s.mem);
    if ins.op.LoadLegacy? {
      LegacyDescribes(a, c.s, c'.s, c.low[d], out.r0);
    } else {
      ExternalTolerable(k, c, b, i);
      FloorHolds(k, c, a, ins);
      CallSlots(k.w, a, i, c.s.mem, out.mem, d, c'.low[d]);
      CallRegs(k.w, a, c.s, i, c.s.pc + 1, Plain, out.r0);
    }
  }

  /** What a call that returns at once leaves. */
  ghost predicate ReturnedAtOnce(k: World, c: Config, c': Config, i: nat)
    requires i < |k.w.p| && |c.s.regs| == 11 && |c.low| == |c.s.calls| + 1
  {
    var out := k.env.ext(CallOut(k.env, k.w.p[i], c.s.regs), c.s.mem);
    out.Done? && c'.s.mem == out.mem && c'.s.calls == c.s.calls && c'.s.pc == c.s.pc + 1 && c'.low == LowNow(k.env, c, k.w.p[i]) &&
    c'.s.regs == ReturnRegs(out.r0, SaveFrame(c.s, c.s.pc + 1, Plain), |c.s.calls|)
  }

  lemma {:induction false} NextReturns(k: World, c: Config, c': Config, i: nat)
    requires k.L.insns == k.w.p && Next(k.env, k.w, k.L, k.grants, c, c')
    requires i == IndexOf(k.w.p, c.s.pc) && (IsExternal(k.w.p[i]) || k.w.p[i].op.LoadLegacy?)
    requires k.env.ext(CallOut(k.env, k.w.p[i], c.s.regs), c.s.mem).Done?
    ensures ReturnedAtOnce(k, c, c', i) && CallOutLaw(k.env, k.w, k.L, k.grants, c, k.w.p[i])
  {
  }

  /** A result that aliases a caller's buffer goes where an argument went. */
  lemma {:induction false} ResultAllowed(k: World, c: Config, b: Book, i: nat)
    requires BookOk(k, c, b) && Located(k, c, b) && i < |k.w.p| && CallOutLaw(k.env, k.w, k.L, k.grants, c, k.w.p[i])
    requires k.env.ext(CallOut(k.env, k.w.p[i], c.s.regs), c.s.mem).Done?
    ensures Allowed(k.env.ext(CallOut(k.env, k.w.p[i], c.s.regs), c.s.mem).r0, |c.s.calls|, b.seal)
  {
    var call := CallOut(k.env, k.w.p[i], c.s.regs);
    var v := k.env.ext(call, c.s.mem).r0;
    if Tracked(v) {
      CallArgsAllowed(k, c, b, k.w.p[i]);
      ArgsUnsealed(call.args, |c.s.calls|, b.seal, v.region.depth);
    }
  }

  lemma {:induction false} ReturnedLocated(k: World, c: Config, c': Config, b: Book, i: nat)
    requires WorldOk(k) && Inv(k, c, b) && i == IndexOf(k.w.p, c.s.pc) && (IsExternal(k.w.p[i]) || k.w.p[i].op.LoadLegacy?)
    requires CallOutLaw(k.env, k.w, k.L, k.grants, c, k.w.p[i]) && ReturnedAtOnce(k, c, c', i) && BookOk(k, c', b)
    ensures Located(k, c', b) && IndexOf(k.w.p, c'.s.pc) == i + 1
  {
    ReturnsNext(k, c, b, i);
    ReturnedAllowed(k, c, c', b, i);
  }

  lemma {:induction false} ReturnsNext(k: World, c: Config, b: Book, i: nat)
    requires WorldOk(k) && BookOk(k, c, b) && Located(k, c, b) && i == IndexOf(k.w.p, c.s.pc) && (IsExternal(k.w.p[i]) || k.w.p[i].op.LoadLegacy?)
    ensures IndexOf(k.w.p, c.s.pc + 1) == i + 1 && Within(k.w, b.fn[|c.s.calls|], i + 1)
  {
    StepLeads(k, c, b, i);
  }

  lemma {:induction false} ReturnedAllowed(k: World, c: Config, c': Config, b: Book, i: nat)
    requires BookOk(k, c, b) && Located(k, c, b) && i < |k.w.p| && CallOutLaw(k.env, k.w, k.L, k.grants, c, k.w.p[i]) && ReturnedAtOnce(k, c, c', i)
    ensures WellFormed(c'.s) && AllAllowed(c'.s.regs, |c.s.calls|, b.seal)
  {
    ResultAllowed(k, c, b, i);
    ReturnRegsAllowed(k, c, b, k.env.ext(CallOut(k.env, k.w.p[i], c.s.regs), c.s.mem).r0, c.s.pc + 1, Plain);
  }

  lemma {:induction false} ExternalReturns(k: World, c: Config, c': Config, b: Book, i: nat)
    requires WorldOk(k) && Inv(k, c, b) && i == IndexOf(k.w.p, c.s.pc) && (IsExternal(k.w.p[i]) || k.w.p[i].op.LoadLegacy?)
    requires CallOutLaw(k.env, k.w, k.L, k.grants, c, k.w.p[i]) && ReturnedAtOnce(k, c, c', i)
    ensures Inv(k, c', b)
  {
    ReturnedBase(k, c, c', b, i);
    ReturnedLocated(k, c, c', b, i);
    ReturnedTop(k, c, c', b, i);
  }

  lemma {:induction false} ReturnedBase(k: World, c: Config, c': Config, b: Book, i: nat)
    requires WorldOk(k) && Inv(k, c, b) && i == IndexOf(k.w.p, c.s.pc) && (IsExternal(k.w.p[i]) || k.w.p[i].op.LoadLegacy?)
    requires CallOutLaw(k.env, k.w, k.L, k.grants, c, k.w.p[i]) && ReturnedAtOnce(k, c, c', i)
    ensures Base(k, c', b)
  {
    ExternalTolerable(k, c, b, i);
    assert BookOk(k, c', b);
    BaseSurvives(k, c, c', b);
  }

  lemma {:induction false} ReturnedTop(k: World, c: Config, c': Config, b: Book, i: nat)
    requires WorldOk(k) && Inv(k, c, b) && i == IndexOf(k.w.p, c.s.pc) && (IsExternal(k.w.p[i]) || k.w.p[i].op.LoadLegacy?)
    requires CallOutLaw(k.env, k.w, k.L, k.grants, c, k.w.p[i]) && ReturnedAtOnce(k, c, c', i)
    requires BookOk(k, c', b) && IndexOf(k.w.p, c'.s.pc) == i + 1
    ensures TopOk(k, c', b)
  {
    var f := b.fn[|c.s.calls|];
    if k.out[f].Proven? {
      ReturnedDescribes(k, c, c', b, i, k.out[f].states[i]);
    }
    TopFollows(k, c, c', b, i);
  }

  // ---------------------------------------------------------------- a new frame

  lemma {:induction false} AllowedGrows(v: Value, j: nat, seal: seq<bool>, more: bool)
    requires j <= |seal|
    ensures Allowed(v, j, seal + [more]) <==> Allowed(v, j, seal)
  {
  }

  lemma {:induction false} FrameGrows(k: World, b: Book, b': Book, m: Memory, j: nat, f: nat, more: bool)
    requires |b.fn| == |b.seal| + 1 && j < |b.fn| && b' == Book(b.fn + [f], b.seal + [more]) && FrameOk(k, b, m, j)
    ensures FrameOk(k, b', m, j)
  {
    forall o: int
      ensures Allowed(m(Frame(j), o).v, j, b'.seal)
    {
      assert Allowed(m(Frame(j), o).v, j, b.seal);
      AllowedGrows(m(Frame(j), o).v, j, b.seal, more);
    }
  }

  lemma {:induction false} SavedGrows(k: World, b: Book, b': Book, saved: Saved, j: nat, f: nat, more: bool)
    requires |b.fn| == |b.seal| + 1 && j < |b.seal| && b' == Book(b.fn + [f], b.seal + [more]) && b.fn[j] < |k.w.fns|
    requires SavedOk(k, b, saved, j)
    ensures SavedOk(k, b', saved, j)
  {
    AllowedGrows(saved.r6, j, b.seal, more);
    AllowedGrows(saved.r7, j, b.seal, more);
    AllowedGrows(saved.r8, j, b.seal, more);
    AllowedGrows(saved.r9, j, b.seal, more);
    if saved.resume.Token? {
      assert forall e | e in k.grants.of(saved.resume.k) :: e <= j && !b.seal[e];
    }
  }

  lemma {:induction false} WaitGrows(k: World, c: Config, c': Config, b: Book, b': Book, saved: Saved, j: nat, f: nat, more: bool)
    requires BookOk(k, c, b) && BookOk(k, c', b') && j < |c.s.calls| && b' == Book(b.fn + [f], b.seal + [more])
    requires c'.s.calls == c.s.calls + [saved] && c'.s.mem == c.s.mem && c'.low == c.low + [0]
    requires WaitOk(k, c, b, j) && (Guard(k, b, c.s.calls, j) ==> b.seal[j])
    ensures WaitOk(k, c', b', j)
  {
  }

  /** The new frame holds no pointers, so it is in order whatever its function. */
  lemma {:induction false} FreshIsOk(k: World, b: Book, m: Memory, j: nat)
    requires j < |b.fn| && FreshFrame(m, j)
    ensures FrameOk(k, b, m, j)
  {
  }

  lemma {:induction false} PushBase(k: World, c: Config, c': Config, b: Book, b': Book, saved: Saved, f: nat, more: bool)
    requires Base(k, c, b) && 0 < f < |k.w.fns| && b' == Book(b.fn + [f], b.seal + [more])
    requires c'.s.calls == c.s.calls + [saved] && c'.s.mem == c.s.mem && c'.low == c.low + [0]
    requires FreshFrame(c'.s.mem, |c.s.calls| + 1)
    requires forall j | 0 <= j < |c.s.calls| && Guard(k, b, c.s.calls, j) :: b.seal[j]
    requires SavedOk(k, b', saved, |c.s.calls|)
    requires WaitOk(k, c', b', |c.s.calls|)
    ensures Base(k, c', b')
  {
    var d := |c.s.calls|;
    forall j | 0 <= j < |b'.fn|
      ensures FrameOk(k, b', c'.s.mem, j)
    {
      if j <= d {
        assert FrameOk(k, b, c.s.mem, j);
        FrameGrows(k, b, b', c.s.mem, j, f, more);
      } else {
        FreshIsOk(k, b', c'.s.mem, j);
      }
    }
    forall j | 0 <= j <= d
      ensures SavedOk(k, b', c'.s.calls[j], j) && WaitOk(k, c', b', j)
    {
      if j < d {
        assert SavedOk(k, b, c.s.calls[j], j) && WaitOk(k, c, b, j);
        SavedGrows(k, b, b', c.s.calls[j], j, f, more);
        WaitGrows(k, c, c', b, b', saved, j, f, more);
      }
    }
  }
}
