/** A program the tracker is wrong about.  The entry passes the context and a function pointer to a static function,
    which saves the context at fp-24 and has a helper run the callback on fp-16; the callback writes fp-24.  Every
    outcome of the proof pass proves the static function and names fp-24 as the context's place after the call. */
module CtxExample {
  import opened Machine
  import opened CtxDomain
  import opened CtxAnalyze
  import opened CtxProve
  import opened CtxMeaning
  import opened CtxKernel
  import opened CtxStraight
  import FrameSound
  import Liveness

  const BPF_LOOP := 181

  /** main: r2 = &cb; call f; exit.  f: *(fp-24) = r1; r3 = fp - 16; r1 = 1; r4 = 0; call bpf_loop; exit.
      cb: *(r2 - 8) = 0; r0 = 0; exit. */
  function InsnAt(i: nat): Insn {
    match i
    case 0 => Insn(LoadFunc, 2, 0, 0, -1, "cb", "main", GlobalFunc)
    case 1 => Insn(CallFunc, 0, 1, 0, -1, "f", "", NotAFunction)
    case 3 => Insn(Store(8), 10, 1, -24, 0, "", "f", StaticFunc)
    case 4 => Insn(Alu(true, Mov, true), 3, 10, 0, 0, "", "", NotAFunction)
    case 5 => Insn(Alu(true, Add, false), 3, 0, 0, -16, "", "", NotAFunction)
    case 6 => Insn(Alu(true, Mov, false), 1, 0, 0, 1, "", "", NotAFunction)
    case 7 => Insn(Alu(true, Mov, false), 4, 0, 0, 0, "", "", NotAFunction)
    case 8 => Insn(CallHelper, 0, 0, 0, BPF_LOOP, "", "", NotAFunction)
    case 10 => Insn(StoreImm(8), 2, 0, -8, 0, "", "cb", StaticFunc)
    case 11 => Insn(Alu(true, Mov, false), 0, 0, 0, 0, "", "", NotAFunction)
    case _ => Insn(Exit, 0, 0, 0, 0, "", "", NotAFunction)
  }

  /** `w` is that program. */
  ghost predicate Sample(w: Flow) {
    |w.p| == 13 && (forall i | 0 <= i < 13 :: w.p[i] == InsnAt(i)) &&
    |w.fns| == 3 && w.fns[0] == Fn(0, 3, true, 0) && w.fns[1] == Fn(3, 10, false, 0) && w.fns[2] == Fn(10, 13, false, -1)
  }

  /** The first instruction takes two slots. */
  lemma {:induction false} Slots(w: Flow, i: nat)
    requires Sample(w) && i <= 13
    ensures Slot(w.p, i) == if i == 0 then 0 else i + 1
    ensures i < 13 ==> IndexOf(w.p, if i == 0 then 0 else i + 1) == i
    decreases i
  {
    if i > 0 {
      Slots(w, i - 1);
    }
    if i < 13 {
      IndexOfSlot(w.p, i);
    }
  }

  lemma {:induction false} References(w: Flow)
    requires Sample(w)
    ensures Callee(w, 0) == 10 && Callee(w, 1) == 3
  {
    assert w.p[3].sym == "f" && w.p[10].sym == "cb";
    assert |"f"| == 1 && |"cb"| == 2 && |"main"| == 4;
  }

  lemma {:induction false} StaysInside(w: Flow, f: nat)
    requires Sample(w) && f < 3
    ensures FrameSound.Contained(w.p, w.fns[f].lo, w.fns[f].hi)
  {
    var lo, hi := w.fns[f].lo, w.fns[f].hi;
    forall j | lo <= j < hi
      ensures FrameSound.ContainedAt(w.p, lo, hi, j)
    {
      assert w.p[j] == InsnAt(j);
    }
  }

  lemma {:induction false} SampleIsVerified(w: Flow)
    requires Sample(w)
    ensures Verified(w)
  {
    References(w);
    forall f | 0 <= f < 3
      ensures FrameSound.Contained(w.p, w.fns[f].lo, w.fns[f].hi)
    {
      StaysInside(w, f);
    }
    assert w.fns[1].lo == Callee(w, 1);
    assert CallsFunction(w, 1);
    forall i | 0 <= i < 13 && w.p[i].op.CallFunc?
      ensures w.p[i].off == 0 && CallsFunction(w, i)
    {
      assert w.p[i] == InsnAt(i);
      assert i == 1;
    }
  }

  // ---------------------------------------------------------------- the verdicts

  lemma {:induction false} SampleIsStraight(w: Flow, f: nat)
    requires Sample(w) && f < 2
    ensures IsStraight(w, f)
  {
    forall i | w.fns[f].lo <= i < w.fns[f].hi
      ensures StraightAt(w, f, i)
    {
      assert w.p[i] == InsnAt(i);
      if i == 1 {
        References(w);
      }
    }
  }

  // ---------------------------------------------------------------- the state at the helper call

  /** The context saved at fp-24, and what R1 and R3 hold. */
  predicate Kept(a: Known, r1: Kind, r3: Kind) {
    Shaped(a) && a.floor == 0 && a.slots[0].Other? && a.slots[1].Other? && a.slots[2].TheCtx? &&
    forall r | 0 <= r < REGS :: a.regs[r] == if r == 1 then r1 else if r == 3 then r3 else Other
  }

  lemma {:induction false} Saves(w: Flow)
    requires Sample(w)
    ensures Kept(After(w, Initial(0), 3), TheCtx, Other)
  {
    assert w.p[3] == InsnAt(3);
    assert SlotAt(-24) == 2;
  }

  lemma {:induction false} Moves(w: Flow, a: Known, i: nat, r1: Kind, r3: Kind)
    requires Sample(w) && 4 <= i < 8 && Kept(a, r1, r3) && (i == 5 ==> r3 == InFrame(0))
    ensures Kept(After(w, a, i), if i == 6 then Other else r1, if i == 4 then InFrame(0) else if i == 5 then InFrame(-16) else r3)
  {
    assert w.p[i] == InsnAt(i);
  }

  lemma {:induction false} LowersFloor(a: Known)
    requires Kept(a, Other, InFrame(-16))
    ensures FloorOver(a, 5) == -16
  {
    assert FloorOver(a, 1) == 0;
    assert FloorOver(a, 2) == 0;
    assert FloorOver(a, 3) == -16;
    assert FloorOver(a, 4) == -16;
  }

  lemma {:induction false} Calls(w: Flow, a: Known)
    requires Sample(w) && Kept(a, Other, InFrame(-16))
    ensures Exposed(a) && !PassesFunc(a)
    ensures var t := After(w, a, 8);
      t.slots[0].Other? && t.slots[1].Other? && t.slots[2].TheCtx? && forall r | 6 <= r <= 9 :: t.regs[r].Other?
  {
    assert w.p[8] == InsnAt(8);
    LowersFloor(a);
    assert HoldsPtr(a.regs[3]);
    var m := CallMemory(a, true, false);
    assert m == Clobber(a.(floor := -16), -16);
    assert m.slots[0] == Other && m.slots[1] == Other;
    assert !Overlaps(2, -16, 0);
  }

  /** What the tracker says before and after the helper call in f. */
  lemma {:induction false} ChainAtCall(w: Flow)
    requires Sample(w) && IsStraight(w, 1)
    ensures Kept(Chain(w, 1, 8), Other, InFrame(-16)) && Chain(w, 1, 9) == After(w, Chain(w, 1, 8), 8)
  {
    Saves(w);
    assert Chain(w, 1, 4) == After(w, Initial(0), 3);
    Moves(w, Chain(w, 1, 4), 4, TheCtx, Other);
    assert Chain(w, 1, 5) == After(w, Chain(w, 1, 4), 4);
    Moves(w, Chain(w, 1, 5), 5, TheCtx, InFrame(0));
    assert Chain(w, 1, 6) == After(w, Chain(w, 1, 5), 5);
    Moves(w, Chain(w, 1, 6), 6, TheCtx, InFrame(-16));
    assert Chain(w, 1, 7) == After(w, Chain(w, 1, 6), 6);
    Moves(w, Chain(w, 1, 7), 7, Other, InFrame(-16));
    assert Chain(w, 1, 8) == After(w, Chain(w, 1, 7), 7);
  }

  // ---------------------------------------------------------------- the verdicts of the proof pass

  lemma {:induction false} EntryProven(w: Flow, out: seq<Verdict>)
    requires Sample(w) && Concluded(w, out)
    ensures IsStraight(w, 0) && out[0].Proven? && 1 in out[0].states && out[0].states[1] == Chain(w, 0, 1) && Passes(w, out, 1, 0, 1)
  {
    assert Grounded(w, out, 0);
    NotACallback(w, 0);
    SampleIsStraight(w, 0);
    ChainSolves(w, 0);
    LeastIsChain(w, 0, out[0].states, 1);
    EntryKeepsContext(w);
  }

  lemma {:induction false} EntryKeepsContext(w: Flow)
    requires Sample(w) && IsStraight(w, 0)
    ensures Chain(w, 0, 1).regs[1].TheCtx?
  {
    assert w.p[0] == InsnAt(0);
    assert Chain(w, 0, 1) == After(w, Initial(0), 0);
  }

  /** Only the third function's address is taken. */
  lemma {:induction false} NotACallback(w: Flow, f: nat)
    requires Sample(w) && f < 2
    ensures !IsCallback(w, w.fns[f].lo)
  {
    References(w);
    forall i | 0 <= i < 13 && w.p[i].op.LoadFunc?
      ensures Callee(w, i) != w.fns[f].lo
    {
      assert w.p[i] == InsnAt(i);
    }
  }

  lemma {:induction false} OnlyCaller(w: Flow, g: nat, i: nat)
    requires Sample(w)
    ensures IsCaller(w, 1, g, i) <==> g == 0 && i == 1
  {
    References(w);
    if i < 13 {
      assert w.p[i] == InsnAt(i);
    }
  }

  /** Every outcome proves f, and after the helper call the context's place is fp-24 and nothing before it. */
  lemma {:induction false} CalleeProven(w: Flow, out: seq<Verdict>)
    requires Sample(w) && Concluded(w, out)
    ensures IsStraight(w, 1) && out[1].Proven? && 8 in out[1].states && 9 in out[1].states
    ensures out[1].states[8] == Chain(w, 1, 8) && out[1].states[9] == Chain(w, 1, 9)
  {
    EntryProven(w, out);
    assert Grounded(w, out, 1);
    NotACallback(w, 1);
    SampleIsStraight(w, 1);
    ChainSolves(w, 1);
    OnlyCaller(w, 0, 1);
    if out[1].Open? {
      var g: nat, i: nat :| IsCaller(w, 1, g, i) && out[g].Open?;
      OnlyCaller(w, g, i);
      assert false;
    }
    if SomeFails(w, out, 1) {
      var g: nat, i: nat :| Fails(w, out, 1, g, i);
      OnlyCaller(w, g, i);
      assert false;
    }
    LeastIsChain(w, 1, out[1].states, 8);
    LeastIsChain(w, 1, out[1].states, 9);
  }
}
