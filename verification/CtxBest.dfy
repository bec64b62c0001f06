/** How precise the context tracker is: the kind it gives a result is the least one that is right in every state the
    tracker's knowledge allows, and exactly where it is not. */
module CtxBest {
  import opened Machine
  import opened CtxDomain
  import opened CtxAnalyze
  import opened CtxMeaning
  import opened CtxKernel
  import opened CtxTransfer
  import opened CtxExact

  // ---------------------------------------------------------------- what a kind means, function pointers included

  /** The meaning of a kind to the tracker itself: what it calls data is no function pointer either. */
  ghost predicate Sees(k: Kind, v: Value, e: nat) {
    Means(k, v, e) && (k.Other? ==> !v.Func?)
  }

  ghost predicate SlotSees(k: Kind, bytes: seq<Frag>, e: nat)
    requires |bytes| == 8
  {
    SlotHolds(k, bytes, e) && (Whole(bytes) ==> Sees(k, bytes[0].v, e))
  }

  ghost predicate AllowsRegs(a: Known, regs: seq<Value>, e: nat)
    requires Shaped(a)
  {
    |regs| == 11 && regs[FP] == FramePtr(e) && (forall r | 0 <= r < REGS :: Sees(a.regs[r], regs[r], e)) &&
    forall r | 0 <= r < 11 :: regs[r].Ptr? && regs[r].region.Frame? ==> regs[r].region.depth <= e
  }

  /** Pointers lie in the frame whole and aligned, and none into it lies outside. */
  ghost predicate AllowsMem(a: Known, m: Memory, e: nat)
    requires Shaped(a)
  {
    SlotsSeen(a, m, e) && Aligned(m, e) && FuncsAligned(m, e) && DataOutside(m, e)
  }

  ghost predicate SlotsSeen(a: Known, m: Memory, e: nat)
    requires Shaped(a)
  {
    forall j | 0 <= j < SLOTS :: SlotSees(a.slots[j], SlotBytes(m, e, j), e)
  }

  ghost predicate FuncsAligned(m: Memory, e: nat) {
    forall o: int :: m(Frame(e), o).v.Func? ==> (o - m(Frame(e), o).k) % 8 == 0
  }

  ghost predicate DataOutside(m: Memory, e: nat) {
    forall r: Region, o: int | r != Frame(e) :: !m(r, o).v.Func? && !PointsInto(m(r, o).v, e)
  }

  /** The states of frame `e` that the tracker's knowledge allows. */
  ghost predicate Allows(a: Known, s: State, e: nat) {
    Shaped(a) && |s.calls| == e && AllowsRegs(a, s.regs, e) && AllowsMem(a, s.mem, e)
  }

  lemma {:induction false} AllowedIsTidy(a: Known, s: State, e: nat)
    requires Allows(a, s, e)
    ensures Tidy(s) && Describes(a, s, a.floor)
  {
    forall j | 0 <= j < SLOTS
      ensures SlotHolds(a.slots[j], SlotBytes(s.mem, e, j), e)
    {
      assert SlotSees(a.slots[j], SlotBytes(s.mem, e, j), e);
    }
  }

  ghost predicate LoadsLawfully(env: Env, s: State, ins: Insn)
    requires |s.regs| == 11
  {
    ins.op.Load? && s.regs[ins.src].Ptr? ==>
      LoadLaw(env, s.mem, s.regs[ins.src], ins.off, ins.op.size, ins.op.signed, |s.calls|)
  }

  /** Some allowed state in which `ins` leaves `v` in its register. */
  ghost predicate GivesFrom(env: Env, L: Loaded, a: Known, ins: Insn, e: nat, v: Value, s: State) {
    Allows(a, s, e) && LoadsLawfully(env, s, ins) && Exec(env, L, s, ins).Running? && |Exec(env, L, s, ins).s.regs| == 11 &&
    Exec(env, L, s, ins).s.regs[ins.dst] == v
  }

  ghost predicate Gives(env: Env, L: Loaded, a: Known, ins: Insn, e: nat, v: Value) {
    exists s: State :: GivesFrom(env, L, a, ins, e, v, s)
  }

  ghost predicate Right(env: Env, L: Loaded, a: Known, ins: Insn, e: nat, k: Kind) {
    KindOk(k) && forall v: Value | Gives(env, L, a, ins, e, v) :: Sees(k, v, e)
  }

  /** `k` is right for the result, and every kind that is right is at least `k`. */
  ghost predicate Least(env: Env, L: Loaded, a: Known, ins: Insn, e: nat, k: Kind) {
    Right(env, L, a, ins, e, k) && forall l: Kind | Right(env, L, a, ins, e, l) :: Below(k, l)
  }

  // ---------------------------------------------------------------- witnesses

  /** A state that is as `a` says, with chosen register contents. */
  ghost function Typical(a: Known, e: nat, regs: seq<Value>, m: Memory): State {
    State(0, regs, m, seq(e, _ => Saved(0, Undef, Undef, Undef, Undef, Plain)), [])
  }

  ghost function Regs(a: Known, e: nat): (regs: seq<Value>)
    requires Shaped(a)
    ensures |regs| == 11
  {
    seq(11, r requires 0 <= r < 11 => if r == 10 then FramePtr(e) else Example(a.regs[r], e))
  }

  lemma {:induction false} TypicalSlot(a: Known, e: nat, j: nat)
    requires Shaped(a) && j < SLOTS
    ensures SlotSees(a.slots[j], SlotBytes(CtxExact.Witness(a, e), e, j), e)
    ensures forall n | 0 <= n < 8 :: SlotBytes(CtxExact.Witness(a, e), e, j)[n] == Frag(Example(a.slots[j], e), n)
  {
    var b := SlotBytes(CtxExact.Witness(a, e), e, j);
    forall n | 0 <= n < 8
      ensures b[n] == Frag(Example(a.slots[j], e), n)
    {
      var o := SlotOff(j) + n;
      assert o % 8 == n && o - o % 8 == SlotOff(j);
      assert SlotAt(SlotOff(j)) == j;
    }
  }

  lemma {:induction false} TypicalMem(a: Known, e: nat)
    requires Shaped(a)
    ensures AllowsMem(a, CtxExact.Witness(a, e), e)
  {
    var m := CtxExact.Witness(a, e);
    forall j | 0 <= j < SLOTS
      ensures SlotSees(a.slots[j], SlotBytes(m, e, j), e)
    {
      TypicalSlot(a, e, j);
    }
    TypicalBytes(a, e);
  }

  lemma {:induction false} TypicalBytes(a: Known, e: nat)
    requires Shaped(a)
    ensures var m := CtxExact.Witness(a, e);
      Aligned(m, e) && (forall r: Region, o: int | r != Frame(e) :: m(r, o) == Frag(Num(0), 0)) &&
      (forall o: int :: !m(Frame(e), o).v.Func?) && forall o: int | DEEPEST <= o < 0 :: m(Frame(e), o).k == o % 8
  {
    var m := CtxExact.Witness(a, e);
    forall o: int
      ensures !m(Frame(e), o).v.Func?
      ensures Tracked(m(Frame(e), o).v) ==> (o - m(Frame(e), o).k) % 8 == 0
    {
      if DEEPEST <= o < 0 {
        assert m(Frame(e), o) == Frag(Example(a.slots[SlotAt(o - o % 8)], e), o % 8);
      }
    }
  }

  // ---------------------------------------------------------------- least kinds

  /** The values that rule out every kind below the one given. */
  lemma {:induction false} LeastByValues(env: Env, L: Loaded, a: Known, ins: Insn, e: nat, k: Kind, v: Value, u: Value)
    requires Right(env, L, a, ins, e, k) && Gives(env, L, a, ins, e, v) && Gives(env, L, a, ins, e, u)
    requires match k
      case TheCtx => v == CTX
      case InFrame(at) => v == Ptr(Frame(e), at)
      case Other => v != CTX
      case MaybeFunc => v.Func?
      case Any => PointsInto(v, e) && (u != v || !(DEEPEST <= v.off <= 0))
    ensures Least(env, L, a, ins, e, k)
  {
    forall l: Kind | Right(env, L, a, ins, e, l)
      ensures Below(k, l)
    {
      assert Sees(l, v, e) && Sees(l, u, e) && Sees(k, v, e);
    }
  }

  lemma {:induction false} NotLeast(env: Env, L: Loaded, a: Known, ins: Insn, e: nat, k: Kind, l: Kind)
    requires Right(env, L, a, ins, e, l) && !Below(k, l)
    ensures !Least(env, L, a, ins, e, k)
  {
  }

  // ---------------------------------------------------------------- arithmetic

  predicate CanBeNumber(k: Kind) {
    k.Other? || k.MaybeFunc? || k.Any?
  }

  /** Where the kind of an ALU result is the least right one: not for function pointers moved by a constant, the context
      moved by zero, a register added to or taken from itself, or sums in which no frame pointer can meet a number. */
  predicate AluIsLeast(a: Known, ins: Insn)
    requires Shaped(a) && ins.op.Alu?
  {
    var op, d, s := ins.op, RegKind(a, ins.dst), RegKind(a, ins.src);
    op.wide && (op.alu.Add? || op.alu.Sub?) ==>
      if !op.fromReg then !d.MaybeFunc? && (d.TheCtx? ==> ins.imm != 0)
      else if ins.src == ins.dst then !NotData(d)
      else !(NotData(d) || NotData(s)) || (HoldsPtr(d) && CanBeNumber(s)) || (op.alu.Add? && CanBeNumber(d) && HoldsPtr(s))
  }

  /** The result for chosen operands. */
  lemma {:induction false} AluGives(env: Env, L: Loaded, a: Known, ins: Insn, e: nat, x: Value, y: Value)
    requires Shaped(a) && ins.op.Alu? && ins.dst != FP && Sees(a.regs[ins.dst], x, e) && Sees(RegKind(a, ins.src), y, e)
    requires ins.src == ins.dst ==> x == y
    requires ins.src == FP ==> y == FramePtr(e)
    requires (x.Ptr? && x.region.Frame? ==> x.region.depth <= e) && (y.Ptr? && y.region.Frame? ==> y.region.depth <= e)
    ensures Gives(env, L, a, ins, e, AluValue(env, ins.op, ins.off, x, if ins.op.fromReg then y else Num(ins.imm)))
  {
    var regs := Regs(a, e)[ins.dst := x];
    if ins.src != FP {
      regs := regs[ins.src := y];
    }
    TypicalMem(a, e);
    var s := Typical(a, e, regs, CtxExact.Witness(a, e));
    assert GivesFrom(env, L, a, ins, e, AluValue(env, ins.op, ins.off, x, if ins.op.fromReg then y else Num(ins.imm)), s);
  }

  lemma {:induction false} AluIsRight(env: Env, L: Loaded, a: Known, ins: Insn, e: nat)
    requires Shaped(a) && ins.op.Alu? && ins.dst != FP
    ensures Right(env, L, a, ins, e, AluKind(a, ins))
  {
    forall v: Value | Gives(env, L, a, ins, e, v)
      ensures Sees(AluKind(a, ins), v, e)
    {
      var s: State :| GivesFrom(env, L, a, ins, e, v, s);
      AllowedIsTidy(a, s, e);
      AluHolds(env, a, s.regs, e, ins);
      assert ins.src != FP ==> Sees(a.regs[ins.src], s.regs[ins.src], e);
    }
  }

  /** A value of each kind other than zero, and another frame pointer or a function where the kind allows. */
  function Second(k: Kind, e: nat): Value {
    match k
    case MaybeFunc => Func(0)
    case Any => Ptr(Frame(e), 0)
    case TheCtx => CTX
    case InFrame(at) => Ptr(Frame(e), at)
    case Other => Num(1)
  }

  lemma {:induction false} LeastByBoth(env: Env, L: Loaded, a: Known, ins: Insn, e: nat, k: Kind)
    requires Right(env, L, a, ins, e, k) && Gives(env, L, a, ins, e, Example(k, e)) && Gives(env, L, a, ins, e, Second(k, e))
    ensures Least(env, L, a, ins, e, k)
  {
    LeastByValues(env, L, a, ins, e, k, if k.MaybeFunc? || k.Any? then Second(k, e) else Example(k, e), Example(k, e));
  }

  lemma {:induction false} MoveIsLeast(env: Env, L: Loaded, a: Known, ins: Insn, e: nat)
    requires Shaped(a) && ins.op.Alu? && ins.dst != FP && ins.op.wide && ins.op.alu.Mov? && ins.off == 0 && ins.op.fromReg
    ensures Least(env, L, a, ins, e, AluKind(a, ins))
  {
    var k := RegKind(a, ins.src);
    var y, z := Example(k, e), Second(k, e);
    AluIsRight(env, L, a, ins, e);
    AluGives(env, L, a, ins, e, if ins.src == ins.dst then y else Example(a.regs[ins.dst], e), y);
    AluGives(env, L, a, ins, e, if ins.src == ins.dst then z else Example(a.regs[ins.dst], e), z);
    LeastByBoth(env, L, a, ins, e, k);
  }

  /** Everything but moves, sums and differences of whole registers leaves a number. */
  lemma {:induction false} NumberIsLeast(env: Env, L: Loaded, a: Known, ins: Insn, e: nat)
    requires Shaped(a) && ins.op.Alu? && ins.dst != FP && !(ins.op.wide && (ins.op.alu.Add? || ins.op.alu.Sub?))
    requires !(ins.op.wide && ins.op.alu.Mov? && ins.off == 0 && ins.op.fromReg)
    ensures Least(env, L, a, ins, e, AluKind(a, ins))
  {
    var x, y := Example(a.regs[ins.dst], e), Example(RegKind(a, ins.src), e);
    var v := AluValue(env, ins.op, ins.off, x, if ins.op.fromReg then y else Num(ins.imm));
    AluIsRight(env, L, a, ins, e);
    AluGives(env, L, a, ins, e, x, y);
    assert v.Num?;
    LeastByValues(env, L, a, ins, e, Other, v, v);
  }

  lemma {:induction false} ConstantSum(env: Env, L: Loaded, a: Known, ins: Insn, e: nat)
    requires Shaped(a) && ins.op.Alu? && ins.dst != FP && ins.op.wide && (ins.op.alu.Add? || ins.op.alu.Sub?) && !ins.op.fromReg
    ensures Least(env, L, a, ins, e, AluKind(a, ins)) <==> AluIsLeast(a, ins)
  {
    if AluIsLeast(a, ins) {
      ConstantSumLeast(env, L, a, ins, e);
    } else {
      ConstantSumNotLeast(env, L, a, ins, e, if a.regs[ins.dst].TheCtx? then TheCtx else Other);
    }
  }

  lemma {:induction false} ConstantSumLeast(env: Env, L: Loaded, a: Known, ins: Insn, e: nat)
    requires Shaped(a) && ins.op.Alu? && ins.dst != FP && ins.op.wide && (ins.op.alu.Add? || ins.op.alu.Sub?) && !ins.op.fromReg
    requires AluIsLeast(a, ins)
    ensures Least(env, L, a, ins, e, AluKind(a, ins))
  {
    var d, x, z := a.regs[ins.dst], Second(a.regs[ins.dst], e), Example(a.regs[ins.dst], e);
    AluIsRight(env, L, a, ins, e);
    ConstantSumGives(env, L, a, ins, e, x);
    ConstantSumGives(env, L, a, ins, e, z);
    LeastByValues(env, L, a, ins, e, AluKind(a, ins), AluValue(env, ins.op, ins.off, x, Num(ins.imm)), AluValue(env, ins.op, ins.off, z, Num(ins.imm)));
  }

  lemma {:induction false} ConstantSumGives(env: Env, L: Loaded, a: Known, ins: Insn, e: nat, x: Value)
    requires Shaped(a) && ins.op.Alu? && ins.dst != FP && !ins.op.fromReg && Sees(a.regs[ins.dst], x, e)
    requires x.Ptr? && x.region.Frame? ==> x.region.depth <= e
    ensures Gives(env, L, a, ins, e, AluValue(env, ins.op, ins.off, x, Num(ins.imm)))
  {
    AluGives(env, L, a, ins, e, x, if ins.src == ins.dst then x else Example(RegKind(a, ins.src), e));
  }

  lemma {:induction false} ConstantSumNotLeast(env: Env, L: Loaded, a: Known, ins: Insn, e: nat, l: Kind)
    requires Shaped(a) && ins.op.Alu? && ins.dst != FP && ins.op.wide && (ins.op.alu.Add? || ins.op.alu.Sub?) && !ins.op.fromReg
    requires var d := a.regs[ins.dst]; (d.MaybeFunc? && l.Other?) || (d.TheCtx? && ins.imm == 0 && l.TheCtx?)
    ensures !Least(env, L, a, ins, e, AluKind(a, ins))
  {
    forall v: Value | Gives(env, L, a, ins, e, v)
      ensures Sees(l, v, e)
    {
      var s: State :| GivesFrom(env, L, a, ins, e, v, s);
      assert Sees(a.regs[ins.dst], s.regs[ins.dst], e);
    }
    NotLeast(env, L, a, ins, e, AluKind(a, ins), l);
  }

  /** Whether a sum or difference of two registers can be a pointer into the frame. */
  predicate Reaches(alu: AluOp, d: Kind, s: Kind, same: bool) {
    !same && ((HoldsPtr(d) && CanBeNumber(s)) || (alu.Add? && CanBeNumber(d) && HoldsPtr(s)))
  }

  lemma {:induction false} NoFramePointer(env: Env, op: Op, off: int, d: Kind, s: Kind, x: Value, y: Value, e: nat, same: bool)
    requires op.Alu? && op.wide && (op.alu.Add? || op.alu.Sub?) && !Reaches(op.alu, d, s, same)
    requires Sees(d, x, e) && Sees(s, y, e) && (same ==> x == y)
    ensures Sees(Other, AluValue(env, op, off, x, y), e)
  {
  }

  lemma {:induction false} RegisterSum(env: Env, L: Loaded, a: Known, ins: Insn, e: nat)
    requires Shaped(a) && ins.op.Alu? && ins.dst != FP && ins.op.wide && (ins.op.alu.Add? || ins.op.alu.Sub?) && ins.op.fromReg
    ensures Least(env, L, a, ins, e, AluKind(a, ins)) <==> AluIsLeast(a, ins)
  {
    var d, s, same := a.regs[ins.dst], RegKind(a, ins.src), ins.src == ins.dst;
    AluIsRight(env, L, a, ins, e);
    if Reaches(ins.op.alu, d, s, same) {
      ReachedSum(env, L, a, ins, e);
    } else if NotData(d) || NotData(s) {
      forall v: Value | Gives(env, L, a, ins, e, v)
        ensures Sees(Other, v, e)
      {
        var t: State :| GivesFrom(env, L, a, ins, e, v, t);
        assert Sees(d, t.regs[ins.dst], e) && Sees(s, t.regs[ins.src], e);
        NoFramePointer(env, ins.op, ins.off, d, s, t.regs[ins.dst], t.regs[ins.src], e, same);
      }
      NotLeast(env, L, a, ins, e, Any, Other);
    } else {
      var x, y := Second(d, e), if same then Second(d, e) else Second(s, e);
      AluGives(env, L, a, ins, e, x, y);
      LeastByValues(env, L, a, ins, e, Other, AluValue(env, ins.op, ins.off, x, y), AluValue(env, ins.op, ins.off, x, y));
    }
  }

  lemma {:induction false} ReachedSum(env: Env, L: Loaded, a: Known, ins: Insn, e: nat)
    requires Shaped(a) && ins.op.Alu? && ins.dst != FP && ins.op.wide && (ins.op.alu.Add? || ins.op.alu.Sub?) && ins.op.fromReg
    requires Reaches(ins.op.alu, a.regs[ins.dst], RegKind(a, ins.src), ins.src == ins.dst)
    ensures Least(env, L, a, ins, e, AluKind(a, ins))
  {
    var d, s := a.regs[ins.dst], RegKind(a, ins.src);
    AluIsRight(env, L, a, ins, e);
    if HoldsPtr(d) && CanBeNumber(s) {
      var x := Second(d, e);
      AluGives(env, L, a, ins, e, x, Num(0));
      AluGives(env, L, a, ins, e, x, Num(1));
      LeastByValues(env, L, a, ins, e, Any, AluValue(env, ins.op, ins.off, x, Num(0)), AluValue(env, ins.op, ins.off, x, Num(1)));
    } else {
      var y := Second(s, e);
      AluGives(env, L, a, ins, e, Num(0), y);
      AluGives(env, L, a, ins, e, Num(1), y);
      LeastByValues(env, L, a, ins, e, Any, AluValue(env, ins.op, ins.off, Num(0), y), AluValue(env, ins.op, ins.off, Num(1), y));
    }
  }

  /** The kind of an ALU result is right in every allowed state, and is the least right one exactly under that
      condition. */
  lemma {:induction false} AluIsBest(env: Env, L: Loaded, a: Known, ins: Insn, e: nat)
    requires Shaped(a) && ins.op.Alu? && ins.dst != FP
    ensures AfterPlain(a, ins).regs == a.regs[ins.dst := AfterPlain(a, ins).regs[ins.dst]]
    ensures Right(env, L, a, ins, e, AfterPlain(a, ins).regs[ins.dst])
    ensures Least(env, L, a, ins, e, AfterPlain(a, ins).regs[ins.dst]) <==> AluIsLeast(a, ins)
  {
    AluIsRight(env, L, a, ins, e);
    if ins.op.wide && (ins.op.alu.Add? || ins.op.alu.Sub?) {
      if ins.op.fromReg {
        RegisterSum(env, L, a, ins, e);
      } else {
        ConstantSum(env, L, a, ins, e);
      }
    } else if ins.op.wide && ins.op.alu.Mov? && ins.off == 0 && ins.op.fromReg {
      MoveIsLeast(env, L, a, ins, e);
    } else {
      NumberIsLeast(env, L, a, ins, e);
    }
  }

  // ---------------------------------------------------------------- constants

  /** A constant is data, and nothing smaller; a function's address is a function pointer, and nothing smaller. */
  lemma {:induction false} ConstantIsBest(env: Env, L: Loaded, a: Known, ins: Insn, e: nat)
    requires Shaped(a) && (ins.op.LoadImm64? || ins.op.LoadFunc?) && ins.dst != FP
    requires ins.op.LoadImm64? ==> env.literal(ins.op.isMap, ins.ref, ins.imm).Num?
    ensures AfterPlain(a, ins).regs == a.regs[ins.dst := AfterPlain(a, ins).regs[ins.dst]]
    ensures Least(env, L, a, ins, e, AfterPlain(a, ins).regs[ins.dst])
  {
    TypicalMem(a, e);
    var s := Typical(a, e, Regs(a, e), CtxExact.Witness(a, e));
    var v := Exec(env, L, s, ins).s.regs[ins.dst];
    assert GivesFrom(env, L, a, ins, e, v, s);
    LeastByValues(env, L, a, ins, e, AfterPlain(a, ins).regs[ins.dst], v, v);
  }

  // ---------------------------------------------------------------- loads

  /** Where the kind of a loaded value is the least right one: through a pointer at a known frame offset, always; through
      any other, unless nothing is known of the pointer and no frame pointer can come of the load. */
  predicate LoadIsLeast(a: Known, ins: Insn)
    requires Shaped(a) && ins.op.Load?
  {
    RegKind(a, ins.src).Any? ==> ins.op.size == 8 && !ins.op.signed && exists j | 0 <= j < SLOTS :: HoldsPtr(a.slots[j])
  }

  /** The verifier lets such a load run at all. */
  predicate CanLoad(a: Known, ins: Insn)
    requires Shaped(a) && ins.op.Load?
  {
    1 <= ins.op.size <= 8 && (ins.op.signed ==> ins.op.size < 8) &&
    (RegKind(a, ins.src).InFrame? ==> DEEPEST <= RegKind(a, ins.src).at + ins.off && RegKind(a, ins.src).at + ins.off + ins.op.size <= 0)
  }

  ghost function LoadedAt(env: Env, s: State, ins: Insn): Value
    requires |s.regs| == 11 && ins.op.Load? && s.regs[ins.src].Ptr?
  {
    var p := s.regs[ins.src];
    LoadBytes(env, s.mem, p.region, p.off + ins.off, ins.op.size, ins.op.signed)
  }

  /** A load gives exactly what allowed states hold where it reads. */
  lemma {:induction false} LoadGives(env: Env, L: Loaded, a: Known, ins: Insn, e: nat, v: Value, s: State)
    requires ins.op.Load? && ins.dst != FP
    ensures GivesFrom(env, L, a, ins, e, v, s) <==>
      Allows(a, s, e) && s.regs[ins.src].Ptr? && LoadsLawfully(env, s, ins) && v == LoadedAt(env, s, ins)
  {
  }

  lemma {:induction false} LoadIsRight(env: Env, L: Loaded, a: Known, ins: Insn, e: nat)
    requires Shaped(a) && ins.op.Load? && ins.dst != FP
    ensures Right(env, L, a, ins, e, LoadKind(a, RegKind(a, ins.src), ins.off, ins.op.size, ins.op.signed))
  {
    forall v: Value | Gives(env, L, a, ins, e, v)
      ensures Sees(LoadKind(a, RegKind(a, ins.src), ins.off, ins.op.size, ins.op.signed), v, e)
    {
      var s: State :| GivesFrom(env, L, a, ins, e, v, s);
      GivenIsSeen(env, L, a, ins, e, v, s);
    }
  }

  lemma {:induction false} GivenIsSeen(env: Env, L: Loaded, a: Known, ins: Insn, e: nat, v: Value, s: State)
    requires Shaped(a) && ins.op.Load? && ins.dst != FP && GivesFrom(env, L, a, ins, e, v, s)
    ensures Sees(LoadKind(a, RegKind(a, ins.src), ins.off, ins.op.size, ins.op.signed), v, e)
  {
    LoadGives(env, L, a, ins, e, v, s);
    LoadedSeen(env, a, s, ins, e);
  }

  lemma {:induction false} LoadedSeen(env: Env, a: Known, s: State, ins: Insn, e: nat)
    requires Allows(a, s, e) && ins.op.Load? && s.regs[ins.src].Ptr? && LoadsLawfully(env, s, ins)
    ensures var p := s.regs[ins.src];
      Sees(LoadKind(a, RegKind(a, ins.src), ins.off, ins.op.size, ins.op.signed), LoadBytes(env, s.mem, p.region, p.off + ins.off, ins.op.size, ins.op.signed), e)
  {
    var p, op := s.regs[ins.src], ins.op;
    AllowedIsTidy(a, s, e);
    LoadTransfer(env, a, s, a.floor, ins);
    var b, at := Bytes(s.mem, p.region, p.off + ins.off, op.size), p.off + ins.off;
    if Whole(b) {
      assert b[0] == s.mem(p.region, at + 0);
      if p.region == Frame(e) && IsSlot(at) {
        assert b == SlotBytes(s.mem, e, SlotAt(at));
        assert SlotSees(a.slots[SlotAt(at)], SlotBytes(s.mem, e, SlotAt(at)), e);
      }
    }
  }

  /** The typical state with one slot holding a chosen value of its kind. */
  ghost function Slotted(a: Known, e: nat, j: nat, x: Value): Memory
    requires Shaped(a) && j < SLOTS
  {
    StoreBytes(CtxExact.Witness(a, e), Frame(e), SlotOff(j), 8, x)
  }

  lemma {:induction false} SlottedSlot(a: Known, e: nat, j: nat, x: Value, i: nat)
    requires Shaped(a) && j < SLOTS && i < SLOTS && Sees(a.slots[j], x, e)
    ensures SlotSees(a.slots[i], SlotBytes(Slotted(a, e, j, x), e, i), e)
  {
    var m := Slotted(a, e, j, x);
    if i == j {
      assert forall n | 0 <= n < 8 :: SlotBytes(m, e, j)[n] == Frag(x, n);
    } else {
      TypicalSlot(a, e, i);
      SlotUnchanged(CtxExact.Witness(a, e), m, e, i);
    }
  }

  lemma {:induction false} SlottedAligned(a: Known, e: nat, j: nat, x: Value)
    requires Shaped(a) && j < SLOTS
    ensures Aligned(Slotted(a, e, j, x), e) && FuncsAligned(Slotted(a, e, j, x), e)
  {
    var m := Slotted(a, e, j, x);
    TypicalBytes(a, e);
    forall o: int
      ensures Tracked(m(Frame(e), o).v) || m(Frame(e), o).v.Func? ==> (o - m(Frame(e), o).k) % 8 == 0
    {
      if SlotOff(j) <= o < SlotOff(j) + 8 {
        assert m(Frame(e), o) == Frag(x, o - SlotOff(j));
      }
    }
  }

  lemma {:induction false} SlottedOutside(a: Known, e: nat, j: nat, x: Value)
    requires Shaped(a) && j < SLOTS
    ensures DataOutside(Slotted(a, e, j, x), e)
  {
    TypicalBytes(a, e);
  }

  lemma {:induction false} SlottedSlots(a: Known, e: nat, j: nat, x: Value)
    requires Shaped(a) && j < SLOTS && Sees(a.slots[j], x, e)
    ensures SlotsSeen(a, Slotted(a, e, j, x), e)
  {
    forall i | 0 <= i < SLOTS
      ensures SlotSees(a.slots[i], SlotBytes(Slotted(a, e, j, x), e, i), e)
    {
      SlottedSlot(a, e, j, x, i);
    }
  }

  lemma {:induction false} SlottedMem(a: Known, e: nat, j: nat, x: Value)
    requires Shaped(a) && j < SLOTS && Sees(a.slots[j], x, e)
    ensures AllowsMem(a, Slotted(a, e, j, x), e)
  {
    SlottedSlots(a, e, j, x);
    SlottedAligned(a, e, j, x);
    SlottedOutside(a, e, j, x);
  }

  lemma {:induction false} SlottedLoads(env: Env, a: Known, e: nat, j: nat, x: Value)
    requires Shaped(a) && j < SLOTS
    ensures LoadBytes(env, Slotted(a, e, j, x), Frame(e), SlotOff(j), 8, false) == x
  {
    var s := Bytes(Slotted(a, e, j, x), Frame(e), SlotOff(j), 8);
    assert forall n | 0 <= n < 8 :: s[n] == Frag(x, n);
  }

  /** With the pointer register chosen. */
  ghost function Pointing(a: Known, e: nat, r: Reg, p: Value): (regs: seq<Value>)
    requires Shaped(a)
    ensures |regs| == 11
  {
    if r == FP then Regs(a, e) else Regs(a, e)[r := p]
  }

  lemma {:induction false} PointingRegs(a: Known, e: nat, r: Reg, p: Value)
    requires Shaped(a) && Sees(RegKind(a, r), p, e) && (p.Ptr? && p.region.Frame? ==> p.region.depth <= e)
    ensures AllowsRegs(a, Pointing(a, e, r, p), e) && Pointing(a, e, r, p)[r] == p
  {
  }

  /** A load through a chosen pointer, from a chosen memory. */
  lemma {:induction false} Comes(env: Env, L: Loaded, a: Known, ins: Insn, e: nat, p: Value, m: Memory)
    requires Shaped(a) && ins.op.Load? && ins.dst != FP && p.Ptr? && Sees(RegKind(a, ins.src), p, e) && AllowsMem(a, m, e)
    requires p.region.Frame? ==> p.region.depth <= e
    requires LoadLaw(env, m, p, ins.off, ins.op.size, ins.op.signed, e)
    ensures Gives(env, L, a, ins, e, LoadBytes(env, m, p.region, p.off + ins.off, ins.op.size, ins.op.signed))
  {
    PointingRegs(a, e, ins.src, p);
    var s, v := Typical(a, e, Pointing(a, e, ins.src, p), m), LoadBytes(env, m, p.region, p.off + ins.off, ins.op.size, ins.op.signed);
    LoadGives(env, L, a, ins, e, v, s);
    assert GivesFrom(env, L, a, ins, e, v, s);
  }

  /** What a whole slot holds comes through a pointer to it. */
  lemma {:induction false} SlotComes(env: Env, L: Loaded, a: Known, ins: Insn, e: nat, j: nat, p: Value, x: Value)
    requires Shaped(a) && ins.op == Load(8, false) && ins.dst != FP && j < SLOTS && Sees(a.slots[j], x, e)
    requires p.Ptr? && p.region == Frame(e) && p.off + ins.off == SlotOff(j) && Sees(RegKind(a, ins.src), p, e)
    ensures Gives(env, L, a, ins, e, x)
  {
    SlottedMem(a, e, j, x);
    SlottedLoads(env, a, e, j, x);
    Comes(env, L, a, ins, e, p, Slotted(a, e, j, x));
  }

  /** Outside the frame, and off its slots, the typical memory holds no whole value. */
  lemma {:induction false} NotWhole(a: Known, e: nat, r: Region, at: int, size: nat)
    requires Shaped(a) && (r == Frame(e) ==> DEEPEST <= at && at + size <= 0 && !(IsSlot(at) && size == 8))
    ensures !Whole(Bytes(CtxExact.Witness(a, e), r, at, size))
  {
    TypicalBytes(a, e);
    var b := Bytes(CtxExact.Witness(a, e), r, at, size);
    if size == 8 {
      assert b[0] == CtxExact.Witness(a, e)(r, at + 0) && b[1] == CtxExact.Witness(a, e)(r, at + 1);
    }
  }

  /** A number comes of a load through the context, or from part of a slot. */
  lemma {:induction false} NumberComes(env: Env, L: Loaded, a: Known, ins: Insn, e: nat, p: Value) returns (v: Value)
    requires Shaped(a) && ins.op.Load? && ins.dst != FP && CanLoad(a, ins) && p.Ptr? && Sees(RegKind(a, ins.src), p, e)
    requires p == CTX || (p.region == Frame(e) && DEEPEST <= p.off + ins.off && p.off + ins.off + ins.op.size <= 0 &&
      !(IsSlot(p.off + ins.off) && ins.op.size == 8))
    ensures v.Num? && Gives(env, L, a, ins, e, v)
  {
    var m, at := CtxExact.Witness(a, e), p.off + ins.off;
    TypicalMem(a, e);
    NotWhole(a, e, p.region, at, ins.op.size);
    v := LoadBytes(env, m, p.region, at, ins.op.size, ins.op.signed);
    Comes(env, L, a, ins, e, p, m);
  }

  /** No frame pointer comes of a load that is not whole, or where no slot may hold one. */
  lemma {:induction false} NoneComes(env: Env, L: Loaded, a: Known, ins: Insn, e: nat)
    requires Shaped(a) && ins.op.Load? && ins.dst != FP
    requires ins.op.size == 8 && !ins.op.signed ==> forall j | 0 <= j < SLOTS :: !HoldsPtr(a.slots[j])
    ensures Right(env, L, a, ins, e, MaybeFunc)
  {
    forall v: Value | Gives(env, L, a, ins, e, v)
      ensures Sees(MaybeFunc, v, e)
    {
      var s: State :| GivesFrom(env, L, a, ins, e, v, s);
      LoadGives(env, L, a, ins, e, v, s);
      NotIntoFrame(env, a, s, ins, e);
    }
  }

  lemma {:induction false} NotIntoFrame(env: Env, a: Known, s: State, ins: Insn, e: nat)
    requires Allows(a, s, e) && ins.op.Load? && s.regs[ins.src].Ptr? && LoadsLawfully(env, s, ins)
    requires ins.op.size == 8 && !ins.op.signed ==> forall j | 0 <= j < SLOTS :: !HoldsPtr(a.slots[j])
    ensures !PointsInto(LoadedAt(env, s, ins), e)
  {
    var p := s.regs[ins.src];
    var at := p.off + ins.off;
    var b := Bytes(s.mem, p.region, at, ins.op.size);
    AllowedIsTidy(a, s, e);
    if p.region != Frame(e) {
      ForeignLoad(env, s, p.region, at, ins.op.size, ins.op.signed);
    } else if Whole(b) {
      assert b[0] == s.mem(Frame(e), at + 0);
      if IsSlot(at) {
        var j := SlotAt(at);
        assert b == SlotBytes(s.mem, e, j);
        assert SlotSees(a.slots[j], SlotBytes(s.mem, e, j), e);
      }
    }
  }

  lemma {:induction false} SlotLoadIsLeast(env: Env, L: Loaded, a: Known, ins: Insn, e: nat, j: nat, p: Value, k: Kind)
    requires Shaped(a) && ins.op == Load(8, false) && ins.dst != FP && j < SLOTS && k == a.slots[j] && Right(env, L, a, ins, e, k)
    requires p.Ptr? && p.region == Frame(e) && p.off + ins.off == SlotOff(j) && Sees(RegKind(a, ins.src), p, e)
    ensures Least(env, L, a, ins, e, k)
  {
    SlotComes(env, L, a, ins, e, j, p, Example(k, e));
    SlotComes(env, L, a, ins, e, j, p, Second(k, e));
    LeastByBoth(env, L, a, ins, e, k);
  }

  /** The kind of a loaded value is right in every allowed state, and is the least right one exactly under that
      condition; in particular a whole slot gives what the tracker knows of it. */
  lemma {:induction false} LoadIsBest(env: Env, L: Loaded, a: Known, ins: Insn, e: nat)
    requires Shaped(a) && ins.op.Load? && ins.dst != FP && CanLoad(a, ins)
    ensures AfterPlain(a, ins).regs == a.regs[ins.dst := AfterPlain(a, ins).regs[ins.dst]]
    ensures Right(env, L, a, ins, e, AfterPlain(a, ins).regs[ins.dst])
    ensures Least(env, L, a, ins, e, AfterPlain(a, ins).regs[ins.dst]) <==> LoadIsLeast(a, ins)
  {
    var base, size, signed := RegKind(a, ins.src), ins.op.size, ins.op.signed;
    LoadIsRight(env, L, a, ins, e);
    if base.Any? {
      AnyLoad(env, L, a, ins, e);
    } else if base.InFrame? && IsSlot(base.at + ins.off) && size == 8 {
      var j := SlotAt(base.at + ins.off);
      SlotLoadIsLeast(env, L, a, ins, e, j, Ptr(Frame(e), base.at), a.slots[j]);
    } else {
      var v := NumberComes(env, L, a, ins, e, if base.InFrame? then Ptr(Frame(e), base.at) else CTX);
      LeastByValues(env, L, a, ins, e, Other, v, v);
    }
  }

  lemma {:induction false} AnyLoad(env: Env, L: Loaded, a: Known, ins: Insn, e: nat)
    requires Shaped(a) && ins.op.Load? && ins.dst != FP && CanLoad(a, ins) && RegKind(a, ins.src).Any?
    ensures Least(env, L, a, ins, e, Any) <==> LoadIsLeast(a, ins)
  {
    if LoadIsLeast(a, ins) {
      var j :| 0 <= j < SLOTS && HoldsPtr(a.slots[j]);
      SlotComes(env, L, a, ins, e, j, Ptr(Frame(e), SlotOff(j) - ins.off), Second(a.slots[j], e));
      var u := NumberComes(env, L, a, ins, e, CTX);
      assert Right(env, L, a, ins, e, Any);
      LeastByValues(env, L, a, ins, e, Any, Second(a.slots[j], e), u);
    } else {
      NoneComes(env, L, a, ins, e);
      NotLeast(env, L, a, ins, e, Any, MaybeFunc);
    }
  }
}
