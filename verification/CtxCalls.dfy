/** Why the tracker's effect of a call is right: what a helper, a callback or another function can do to the
    caller's frame and registers. */
module CtxCalls {
  import opened Machine
  import opened CtxDomain
  import opened CtxAnalyze
  import opened CtxMeaning
  import opened CtxKernel

  lemma {:induction false} NotExposed(a: Known, regs: seq<Value>, d: nat, r: nat)
    requires Shaped(a) && RegsHold(a, regs, d) && 1 <= r <= 5
    ensures PointsInto(regs[r], d) ==> Exposed(a)
  {
    assert Means(a.regs[r], regs[r], d);
  }

  lemma {:induction false} FloorBelowLow(a: Known, regs: seq<Value>, d: nat, low: int, n: nat)
    requires Shaped(a) && RegsHold(a, regs, d) && a.floor <= low && n <= 5
    ensures FloorOver(a, 5) <= LowAfter(low, regs[1..1 + n], d)
    decreases n
  {
    if n > 0 {
      var args := regs[1..1 + n];
      assert args[..n - 1] == regs[1..n] && args[n - 1] == regs[n];
      FloorBelowLow(a, regs, d, low, n - 1);
      assert Means(a.regs[n], regs[n], d);
    }
  }

  /** The slots after a call hold of whatever the call may have done to the frame. */
  lemma {:induction false} CallFrame(a: Known, m: Memory, m': Memory, d: nat, low: int, helper: bool, writeFree: bool)
    requires Shaped(a) && SlotsHold(a, m, d) && AliasOnly(m, m', d, low) && CallMemory(a, helper, writeFree).floor <= low
    ensures var t := CallMemory(a, helper, writeFree); SlotsHold(t, m', d) && Weak(t)
  {
    var lowered := if helper then a.(floor := FloorOver(a, 5)) else a;
    assert SlotsHold(lowered, m, d);
    ClobberWeakens(lowered, m, d);
    var clobbered := Clobber(lowered, lowered.floor);
    WeakSurvives(clobbered, m, m', d, low);
    FilledIsAny(clobbered, m', d);
  }

  ghost function Direct(w: Flow, i: nat): bool
    requires i < |w.p|
  {
    w.p[i].op.CallFunc?
  }

  ghost function Free(w: Flow, i: nat): bool
    requires i < |w.p|
  {
    Direct(w, i) && WriteFreeAt(w, Callee(w, i))
  }

  lemma {:induction false} AfterParts(w: Flow, a: Known, i: nat)
    requires Shaped(a) && i < |w.p| && IsCall(w.p[i])
    ensures var t, mem := After(w, a, i), CallMemory(a, !Direct(w, i), Free(w, i));
      t.slots == mem.slots && t.floor == mem.floor && t.regs[0] == CallResult(a, !Direct(w, i), FuncElsewhere(w)) &&
      t.regs[6..] == a.regs[6..] && forall r | 1 <= r <= 5 :: Means(t.regs[r], Undef, 0)
    ensures var t := After(w, a, i); forall r | 1 <= r <= 5 :: t.regs[r].Other? || t.regs[r].MaybeFunc? || t.regs[r].Any?
  {
    var t := After(w, a, i);
    assert t.regs[6..] == a.regs[6..];
  }

  lemma {:induction false} CallRegs(w: Flow, a: Known, s: State, i: nat, ret: int, resume: Resume, v: Value)
    requires Shaped(a) && RegsHold(a, s.regs, |s.calls|) && i < |w.p| && IsCall(w.p[i])
    requires Means(CallResult(a, !Direct(w, i), FuncElsewhere(w)), v, |s.calls|)
    ensures RegsHold(After(w, a, i), ReturnRegs(v, SaveFrame(s, ret, resume), |s.calls|), |s.calls|)
  {
    AfterParts(w, a, i);
    var t, d := After(w, a, i), |s.calls|;
    var regs := ReturnRegs(v, SaveFrame(s, ret, resume), d);
    forall r | 0 <= r < REGS
      ensures Means(t.regs[r], regs[r], d)
    {
      if r >= 6 {
        assert t.regs[6..][r - 6] == a.regs[6..][r - 6];
        assert Means(a.regs[r], s.regs[r], d);
      }
    }
  }

  /** The frame side of a call, from the parts of the tracker's state. */
  lemma {:induction false} CallSlots(w: Flow, a: Known, i: nat, m: Memory, m': Memory, d: nat, low: int)
    requires Shaped(a) && SlotsHold(a, m, d) && i < |w.p| && IsCall(w.p[i]) && AliasOnly(m, m', d, low)
    requires (if Direct(w, i) then a.floor else FloorOver(a, 5)) <= low
    ensures var t := After(w, a, i); SlotsHold(t, m', d) && Weak(t) && t.floor <= low
  {
    AfterParts(w, a, i);
    CallFrame(a, m, m', d, low, !Direct(w, i), Free(w, i));
    var t, mem := After(w, a, i), CallMemory(a, !Direct(w, i), Free(w, i));
    SameSlots(t, mem, m', d);
  }

  lemma {:induction false} SameSlots(a: Known, b: Known, m: Memory, d: nat)
    requires Shaped(a) && Shaped(b) && a.slots == b.slots && a.floor == b.floor
    ensures (SlotsHold(a, m, d) <==> SlotsHold(b, m, d)) && (Weak(a) <==> Weak(b))
  {
  }

  /** A callee given a pointer into the frame leaves nothing known of it, unless it writes nothing. */
  lemma {:induction false} ExposedIsAny(w: Flow, a: Known, i: nat)
    requires Shaped(a) && i < |w.p| && IsCall(w.p[i]) && Exposed(a)
    requires if Direct(w, i) then !Free(w, i) else PassesFunc(a)
    ensures AllAny(After(w, a, i))
  {
    AfterParts(w, a, i);
  }
}
