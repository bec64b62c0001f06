/** Every transfer of the context tracker is monotone, so its worklist reaches the least solution. */
module CtxMonotone {
  import opened Machine
  import opened CtxDomain
  import opened CtxAnalyze

  lemma {:induction false} JoinMonotone(a: Kind, b: Kind, c: Kind, d: Kind)
    requires Below(a, b) && Below(c, d)
    ensures Below(Join(a, c), Join(b, d))
  {
  }

  lemma {:induction false} SetMonotone(a: Known, b: Known, r: Reg, k: Kind, l: Kind)
    requires Shaped(a) && Shaped(b) && Covers(b, a) && KindOk(k) && KindOk(l) && Below(k, l)
    ensures Covers(SetKind(b, r, l), SetKind(a, r, k))
  {
  }

  lemma {:induction false} RegMonotone(a: Known, b: Known, r: Reg)
    requires Shaped(a) && Shaped(b) && Covers(b, a)
    ensures Below(RegKind(a, r), RegKind(b, r))
  {
  }

  lemma {:induction false} FillMonotone(a: Known, b: Known, lo: int, hi: int, k: Kind, l: Kind)
    requires Shaped(a) && Shaped(b) && Covers(b, a) && KindOk(k) && KindOk(l) && Below(k, l)
    ensures Covers(Fill(b, lo, hi, l), Fill(a, lo, hi, k))
  {
  }

  lemma {:induction false} ClobberMonotone(a: Known, b: Known, lo: int, lower: int)
    requires Shaped(a) && Shaped(b) && Covers(b, a) && lower <= lo
    ensures Covers(Clobber(b, lower), Clobber(a, lo))
  {
    forall i | 0 <= i < SLOTS
      ensures Below(Clobber(a, lo).slots[i], Clobber(b, lower).slots[i])
    {
      assert Below(a.slots[i], b.slots[i]);
      JoinMonotone(a.slots[i], b.slots[i], Other, Other);
    }
  }

  lemma {:induction false} StoreMonotone(a: Known, b: Known, base: Kind, base': Kind, off: int, size: nat, k: Kind, l: Kind)
    requires Shaped(a) && Shaped(b) && Covers(b, a) && KindOk(k) && KindOk(l) && Below(k, l) && Below(base, base')
    ensures Covers(StoreKind(b, base', off, size, l), StoreKind(a, base, off, size, k))
  {
    if base'.InFrame? {
      var at := base'.at + off;
      if !(IsSlot(at) && size == 8) {
        FillMonotone(a, b, at, at + size, if k.Any? then Any else Other, if l.Any? then Any else Other);
      }
    } else if base'.Any? {
      assert forall i | 0 <= i < SLOTS :: Overlaps(i, DEEPEST, 0);
    } else {
      ClobberMonotone(a, b, a.floor, b.floor);
    }
  }

  lemma {:induction false} AtomicMonotone(a: Known, b: Known, ins: Insn)
    requires Shaped(a) && Shaped(b) && Covers(b, a) && ins.op.Atomic?
    ensures Covers(AfterAtomic(b, ins), AfterAtomic(a, ins))
  {
    RegMonotone(a, b, ins.dst);
    StoreMonotone(a, b, RegKind(a, ins.dst), RegKind(b, ins.dst), ins.off, ins.op.size, Any, Any);
    var s, t := StoreKind(a, RegKind(a, ins.dst), ins.off, ins.op.size, Any), StoreKind(b, RegKind(b, ins.dst), ins.off, ins.op.size, Any);
    RegMonotone(s, t, ins.dst);
    RegMonotone(s, t, ins.src);
    var k := if HoldsPtr(RegKind(s, ins.dst)) || HoldsPtr(RegKind(s, ins.src)) then Any else Other;
    var l := if HoldsPtr(RegKind(t, ins.dst)) || HoldsPtr(RegKind(t, ins.src)) then Any else Other;
    var s0, t0 := JoinInto(s, t, 0, k, l);
    var s1, t1 := JoinInto(s0, t0, ins.src, k, l);
    var s2, t2 := JoinInto(s1, t1, ins.dst, k, l);
  }

  lemma {:induction false} JoinInto(a: Known, b: Known, r: Reg, k: Kind, l: Kind) returns (s: Known, t: Known)
    requires Shaped(a) && Shaped(b) && Covers(b, a) && KindOk(k) && KindOk(l) && Below(k, l)
    ensures s == SetKind(a, r, Join(RegKind(a, r), k)) && t == SetKind(b, r, Join(RegKind(b, r), l))
    ensures Shaped(s) && Shaped(t) && Covers(t, s)
  {
    RegMonotone(a, b, r);
    JoinMonotone(RegKind(a, r), RegKind(b, r), k, l);
    s, t := SetKind(a, r, Join(RegKind(a, r), k)), SetKind(b, r, Join(RegKind(b, r), l));
    SetMonotone(a, b, r, Join(RegKind(a, r), k), Join(RegKind(b, r), l));
  }

  lemma {:induction false} PlainMonotone(a: Known, b: Known, ins: Insn)
    requires Shaped(a) && Shaped(b) && Covers(b, a)
    ensures Covers(AfterPlain(b, ins), AfterPlain(a, ins))
  {
    RegMonotone(a, b, ins.dst);
    RegMonotone(a, b, ins.src);
    match ins.op {
      case Alu(_, _, _) => SetMonotone(a, b, ins.dst, AluKind(a, ins), AluKind(b, ins));
      case Load(size, signed) =>
        var k, l := LoadKind(a, RegKind(a, ins.src), ins.off, size, signed), LoadKind(b, RegKind(b, ins.src), ins.off, size, signed);
        assert Below(k, l);
        SetMonotone(a, b, ins.dst, k, l);
      case LoadImm64(_) => SetMonotone(a, b, ins.dst, Other, Other);
      case LoadFunc => SetMonotone(a, b, ins.dst, MaybeFunc, MaybeFunc);
      case StoreImm(size) => StoreMonotone(a, b, RegKind(a, ins.dst), RegKind(b, ins.dst), ins.off, size, Other, Other);
      case Store(size) =>
        StoreMonotone(a, b, RegKind(a, ins.dst), RegKind(b, ins.dst), ins.off, size,
                      if size == 8 then RegKind(a, ins.src) else Other, if size == 8 then RegKind(b, ins.src) else Other);
      case Atomic(_, _, _) => AtomicMonotone(a, b, ins);
      case LoadLegacy =>
      case Goto =>
      case GotoLong =>
      case GotoIndirect =>
      case Branch(_, _, _) =>
      case CallHelper =>
      case CallKfunc =>
      case CallFunc =>
      case Exit =>
    }
  }

  lemma {:induction false} FloorMonotone(a: Known, b: Known, n: nat)
    requires Shaped(a) && Shaped(b) && Covers(b, a) && n <= 5
    ensures FloorOver(b, n) <= FloorOver(a, n)
    decreases n
  {
    if n > 0 {
      FloorMonotone(a, b, n - 1);
      assert Below(a.regs[n], b.regs[n]);
    }
  }

  lemma {:induction false} ExposureMonotone(a: Known, b: Known)
    requires Shaped(a) && Shaped(b) && Covers(b, a)
    ensures (Exposed(a) ==> Exposed(b)) && (PassesFunc(a) ==> PassesFunc(b))
  {
    assert forall r | 1 <= r <= 5 :: Below(a.regs[r], b.regs[r]);
  }

  lemma {:induction false} CallMemoryMonotone(a: Known, b: Known, helper: bool, writeFree: bool)
    requires Shaped(a) && Shaped(b) && Covers(b, a)
    ensures Covers(CallMemory(b, helper, writeFree), CallMemory(a, helper, writeFree))
  {
    FloorMonotone(a, b, 5);
    ExposureMonotone(a, b);
    var s, t := if helper then a.(floor := FloorOver(a, 5)) else a, if helper then b.(floor := FloorOver(b, 5)) else b;
    ClobberMonotone(s, t, s.floor, t.floor);
    var s', t' := Clobber(s, s.floor), Clobber(t, t.floor);
    FillMonotone(s', t', DEEPEST, 0, Any, Any);
    AnyCovers(s', t');
  }

  lemma {:induction false} AnyCovers(a: Known, b: Known)
    requires Shaped(a) && Shaped(b) && Covers(b, a)
    ensures Covers(Fill(b, DEEPEST, 0, Any), a)
  {
  }

  lemma {:induction false} CallMonotone(a: Known, b: Known, helper: bool, writeFree: bool, funcElsewhere: bool)
    requires Shaped(a) && Shaped(b) && Covers(b, a)
    ensures Covers(AfterCall(b, helper, writeFree, funcElsewhere), AfterCall(a, helper, writeFree, funcElsewhere))
  {
    CallMemoryMonotone(a, b, helper, writeFree);
    ExposureMonotone(a, b);
    var s, t := ForgetArgs(CallMemory(a, helper, writeFree)), ForgetArgs(CallMemory(b, helper, writeFree));
    SetMonotone(s, t, 0, CallResult(a, helper, funcElsewhere), CallResult(b, helper, funcElsewhere));
  }

  lemma {:induction false} AfterMonotone(w: Flow, a: Known, b: Known, i: nat)
    requires Shaped(a) && Shaped(b) && Covers(b, a) && i < |w.p|
    ensures Covers(After(w, b, i), After(w, a, i))
  {
    var ins := w.p[i];
    if IsCall(ins) {
      var direct := ins.op.CallFunc?;
      var free := direct && WriteFreeAt(w, Callee(w, i));
      CallMonotone(a, b, !direct, free, FuncElsewhere(w));
      if ins.op.CallHelper? && ins.imm == GET_SMP_PROCESSOR_ID {
        var s, t := AfterCall(a, true, free, FuncElsewhere(w)), AfterCall(b, true, free, FuncElsewhere(w));
        ArgsMonotone(a, b, s, t);
      }
    } else {
      PlainMonotone(a, b, ins);
    }
  }

  lemma {:induction false} ArgsMonotone(a: Known, b: Known, s: Known, t: Known)
    requires Shaped(a) && Shaped(b) && Covers(b, a) && Shaped(s) && Shaped(t) && Covers(t, s)
    ensures Covers(KeepArgs(b, t), KeepArgs(a, s))
  {
    forall r | 0 <= r < REGS
      ensures Below(KeepArgs(a, s).regs[r], KeepArgs(b, t).regs[r])
    {
      KeptArg(a, s, r);
      KeptArg(b, t, r);
      assert Below(a.regs[r], b.regs[r]) && Below(s.regs[r], t.regs[r]);
      JoinMonotone(a.regs[r], b.regs[r], Other, Other);
    }
  }

  lemma {:induction false} KeptArg(s: Known, t: Known, r: nat)
    requires Shaped(s) && Shaped(t) && r < REGS
    ensures KeepArgs(s, t).regs[r] == if 1 <= r <= 5 then Join(s.regs[r], Other) else t.regs[r]
  {
  }
}
