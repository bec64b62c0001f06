/** The context tracker's stores and calls, slot by slot and register by register, and why a slot that an alias may
    write becomes no less than it does. */
module CtxTable {
  import opened Machine
  import opened CtxDomain
  import opened CtxAnalyze
  import opened CtxMeaning
  import opened CtxBest
  import opened CtxExact

  /** A kind once data may have been written over it, or not. */
  function OrData(k: Kind): Kind {
    match k
    case TheCtx => Other
    case InFrame(_) => Any
    case _ => k
  }

  /** What a store at a known offset makes of the slot at `lo`. */
  function SlotAfterOwnStore(was: Kind, lo: int, at: int, size: nat, k: Kind): Kind {
    if size == 8 && at % 8 == 0 && -512 <= at <= -8 then (if lo == at then k else was)
    else if lo < at + size && at < lo + 8 then (if k.Any? then Any else Other)
    else was
  }

  /** Stores: a whole aligned slot at a known offset takes the kind stored, any part of one data (or anything, if the
      value may be); an unknown offset makes every slot unknown; a pointer to elsewhere may write an alias of what was
      given away. */
  lemma {:induction false} StoreTable(a: Known, ins: Insn, j: nat)
    requires Shaped(a) && j < SLOTS && (ins.op.Store? || ins.op.StoreImm?)
    ensures var t, base, lo := AfterPlain(a, ins), RegKind(a, ins.dst), -8 * (j + 1);
      var k := if ins.op.Store? && ins.op.size == 8 then RegKind(a, ins.src) else Other;
      t.regs == a.regs && t.floor == a.floor &&
      t.slots[j] ==
        match base
        case InFrame(b) => SlotAfterOwnStore(a.slots[j], lo, b + ins.off, ins.op.size, k)
        case Any => Any
        case _ => if a.floor < lo + 8 then OrData(a.slots[j]) else a.slots[j]
  {
    if RegKind(a, ins.dst).InFrame? && IsSlot(RegKind(a, ins.dst).at + ins.off) {
      assert SlotOff(SlotAt(RegKind(a, ins.dst).at + ins.off)) == RegKind(a, ins.dst).at + ins.off;
    }
  }

  /** Atomics: the slot may hold anything, */
  lemma {:induction false} AtomicSlots(a: Known, ins: Insn, j: nat)
    requires Shaped(a) && j < SLOTS && ins.op.Atomic?
    ensures var t, base, lo := AfterPlain(a, ins), RegKind(a, ins.dst), -8 * (j + 1);
      t.floor == a.floor &&
      t.slots[j] == match base
        case InFrame(b) => SlotAfterOwnStore(a.slots[j], lo, b + ins.off, ins.op.size, Any)
        case Any => Any
        case _ => if a.floor < lo + 8 then OrData(a.slots[j]) else a.slots[j]
  {
    if RegKind(a, ins.dst).InFrame? && IsSlot(RegKind(a, ins.dst).at + ins.off) {
      assert SlotOff(SlotAt(RegKind(a, ins.dst).at + ins.off)) == RegKind(a, ins.dst).at + ins.off;
    }
  }

  /** and so may the registers the old value may come to, if a frame pointer was near. */
  lemma {:induction false} AtomicRegs(a: Known, ins: Insn, r: Reg)
    requires Shaped(a) && ins.op.Atomic? && r != FP
    ensures var t := AfterPlain(a, ins);
      var near := HoldsPtr(RegKind(a, ins.dst)) || HoldsPtr(RegKind(a, ins.src));
      t.regs[r] == if r == 0 || r == ins.src || r == ins.dst then (if near then Any else OrData(a.regs[r])) else a.regs[r]
  {
    assert StoreKind(a, RegKind(a, ins.dst), ins.off, ins.op.size, Any).regs == a.regs;
  }

  /** A legacy load leaves R6-R9 and the frame alone; jumps and exits change nothing. */
  lemma {:induction false} OtherTable(a: Known, ins: Insn)
    requires Shaped(a) && !ins.op.Alu? && !ins.op.Load? && !ins.op.LoadImm64? && !ins.op.LoadFunc? && !ins.op.Store? && !ins.op.StoreImm? && !ins.op.Atomic?
    ensures var t := AfterPlain(a, ins);
      t.slots == a.slots && t.floor == a.floor &&
      forall r | 0 <= r < REGS :: t.regs[r] == if ins.op.LoadLegacy? && r < 6 then Other else a.regs[r]
  {
  }

  // ---------------------------------------------------------------- calls

  predicate MayPoint(k: Kind) {
    k.InFrame? || k.Any?
  }

  predicate SomePointer(a: Known)
    requires Shaped(a)
  {
    MayPoint(a.regs[1]) || MayPoint(a.regs[2]) || MayPoint(a.regs[3]) || MayPoint(a.regs[4]) || MayPoint(a.regs[5])
  }

  predicate MayCall(k: Kind) {
    k.MaybeFunc? || k.Any?
  }

  predicate SomeFunction(a: Known)
    requires Shaped(a)
  {
    MayCall(a.regs[1]) || MayCall(a.regs[2]) || MayCall(a.regs[3]) || MayCall(a.regs[4]) || MayCall(a.regs[5])
  }

  lemma {:induction false} SomeOfFive(a: Known)
    requires Shaped(a)
    ensures Exposed(a) == SomePointer(a) && PassesFunc(a) == SomeFunction(a)
  {
  }

  /** How low argument `k` reaches. */
  function Reach(k: Kind): int {
    match k
    case InFrame(at) => at
    case Any => -512
    case _ => 0
  }

  function Lower(x: int, y: int): int {
    if x < y then x else y
  }

  lemma {:induction false} FloorIsLowest(a: Known)
    requires Shaped(a)
    ensures FloorOver(a, 5) == Lower(Lower(Lower(Lower(Lower(a.floor, Reach(a.regs[1])), Reach(a.regs[2])), Reach(a.regs[3])), Reach(a.regs[4])), Reach(a.regs[5]))
  {
    assert FloorOver(a, 1) == Lower(a.floor, Reach(a.regs[1]));
    assert FloorOver(a, 2) == Lower(FloorOver(a, 1), Reach(a.regs[2]));
    assert FloorOver(a, 3) == Lower(FloorOver(a, 2), Reach(a.regs[3]));
    assert FloorOver(a, 4) == Lower(FloorOver(a, 3), Reach(a.regs[4]));
  }

  /** A helper or kernel function: the floor falls to the lowest pointer given; with a pointer and a function pointer
      among the arguments every slot is unknown, otherwise each slot that reaches above the floor may hold data; the
      result is data, R6-R9 stay. */
  lemma {:induction false} HelperTable(w: Flow, a: Known, i: nat, j: nat)
    requires Shaped(a) && i < |w.p| && (w.p[i].op.CallHelper? || w.p[i].op.CallKfunc?) && j < SLOTS
    ensures var t := After(w, a, i);
      t.floor == FloorOver(a, 5) &&
      t.slots[j] == (if SomePointer(a) && SomeFunction(a) then Any
                     else if t.floor < -8 * j then OrData(a.slots[j]) else a.slots[j]) &&
      t.regs[0] == Other && (forall r | 6 <= r <= 9 :: t.regs[r] == a.regs[r]) &&
      forall r | 1 <= r <= 5 :: t.regs[r] == if w.p[i].op.CallHelper? && w.p[i].imm == 8 then OrData(a.regs[r]) else Other
  {
    HelperMemory(a, j);
    HelperRegs(w, a, i);
  }

  lemma {:induction false} HelperMemory(a: Known, j: nat)
    requires Shaped(a) && j < SLOTS
    ensures var t := CallMemory(a, true, false);
      t.floor == FloorOver(a, 5) &&
      t.slots[j] == if SomePointer(a) && SomeFunction(a) then Any else if t.floor < -8 * j then OrData(a.slots[j]) else a.slots[j]
  {
    SomeOfFive(a);
  }

  lemma {:induction false} HelperRegs(w: Flow, a: Known, i: nat)
    requires Shaped(a) && i < |w.p| && (w.p[i].op.CallHelper? || w.p[i].op.CallKfunc?)
    ensures var t, m := After(w, a, i), CallMemory(a, true, false);
      t.slots == m.slots && t.floor == m.floor && t.regs[0] == Other && (forall r | 6 <= r <= 9 :: t.regs[r] == a.regs[r]) &&
      forall r | 1 <= r <= 5 :: t.regs[r] == if w.p[i].op.CallHelper? && w.p[i].imm == 8 then OrData(a.regs[r]) else Other
  {
    var t := AfterCall(a, true, false, FuncElsewhere(w));
    Forgotten(a, FuncElsewhere(w));
    if w.p[i].op.CallHelper? && w.p[i].imm == 8 {
      KeptArgs(a, t);
    }
  }

  lemma {:induction false} Forgotten(a: Known, elsewhere: bool)
    requires Shaped(a)
    ensures var t, m := AfterCall(a, true, false, elsewhere), CallMemory(a, true, false);
      t.slots == m.slots && t.floor == m.floor && (forall r | 0 <= r <= 5 :: t.regs[r] == Other) && forall r | 6 <= r <= 9 :: t.regs[r] == a.regs[r]
  {
  }

  lemma {:induction false} KeptArgs(a: Known, t: Known)
    requires Shaped(a) && Shaped(t)
    ensures var u := KeepArgs(a, t);
      u.slots == t.slots && u.floor == t.floor && u.regs[0] == t.regs[0] && (forall r | 6 <= r <= 9 :: u.regs[r] == t.regs[r]) &&
      forall r | 1 <= r <= 5 :: u.regs[r] == OrData(a.regs[r])
  {
    var args := JoinAll(a.regs[1..6], [Other, Other, Other, Other, Other]);
    forall r | 1 <= r <= 5
      ensures KeepArgs(a, t).regs[r] == OrData(a.regs[r])
    {
      assert KeepArgs(a, t).regs[r] == args[r - 1] == Join(a.regs[r], Other);
    }
  }

  /** A call to a function of the program: the floor stays; given a pointer, a function that may write makes every slot
      unknown, and may return an alias; otherwise it may return a function pointer it was given or formed. */
  lemma {:induction false} FunctionTable(w: Flow, a: Known, i: nat, j: nat)
    requires Shaped(a) && i < |w.p| && w.p[i].op.CallFunc? && j < SLOTS
    ensures var t, harmless := After(w, a, i), WriteFreeAt(w, Callee(w, i));
      t.floor == a.floor &&
      t.slots[j] == (if SomePointer(a) && !harmless then Any else if a.floor < -8 * j then OrData(a.slots[j]) else a.slots[j]) &&
      t.regs[0] == (if SomePointer(a) then Any else if SomeFunction(a) || FuncElsewhere(w) then MaybeFunc else Other) &&
      (forall r | 6 <= r <= 9 :: t.regs[r] == a.regs[r]) && forall r | 1 <= r <= 5 :: t.regs[r] == Other
  {
    SomeOfFive(a);
    var m := CallMemory(a, false, WriteFreeAt(w, Callee(w, i)));
    assert m.floor == a.floor;
  }

  // ---------------------------------------------------------------- aliases

  /** The bytes a slot of kind `k` may have after data was written somewhere in it, or nowhere. */
  ghost predicate AfterAlias(k: Kind, e: nat, b: seq<Frag>) {
    |b| == 8 && (SlotSees(k, b, e) || exists n | 0 <= n < 8 :: b[n].v.Num?)
  }

  ghost predicate SlotRight(k: Kind, e: nat, l: Kind) {
    KindOk(l) && forall b: seq<Frag> | AfterAlias(k, e, b) :: SlotSees(l, b, e)
  }

  /** `OrData` is the least kind that is right for such a slot. */
  lemma {:induction false} AliasIsBest(k: Kind, e: nat)
    requires KindOk(k)
    ensures SlotRight(k, e, OrData(k)) && forall l: Kind | SlotRight(k, e, l) :: Below(OrData(k), l)
  {
    forall b: seq<Frag> | AfterAlias(k, e, b)
      ensures SlotSees(OrData(k), b, e)
    {
      if Whole(b) {
        assert forall n | 0 <= n < 8 :: b[n] == Frag(b[0].v, n);
      }
    }
    forall l: Kind | SlotRight(k, e, l)
      ensures Below(OrData(k), l)
    {
      RightOfWhole(k, e, l, Example(k, e));
      RightOfWhole(k, e, l, Second(k, e));
      var zero := WholeOf(Num(0));
      assert AfterAlias(k, e, zero);
      assert Whole(zero) && zero[0].v == Num(0);
    }
  }

  ghost function WholeOf(v: Value): (b: seq<Frag>)
    ensures |b| == 8 && Whole(b) && b[0].v == v
  {
    [Frag(v, 0), Frag(v, 1), Frag(v, 2), Frag(v, 3), Frag(v, 4), Frag(v, 5), Frag(v, 6), Frag(v, 7)]
  }

  lemma {:induction false} RightOfWhole(k: Kind, e: nat, l: Kind, v: Value)
    requires SlotRight(k, e, l) && Sees(k, v, e)
    ensures Sees(l, v, e)
  {
    var b := WholeOf(v);
    assert SlotSees(k, b, e);
    assert AfterAlias(k, e, b);
    assert SlotSees(l, b, e);
  }
}
