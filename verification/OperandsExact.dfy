/** The operand tables of the analyses say no more than they must: every register listed as read can matter, and every
    register not listed as written is kept. */
module OperandsExact {
  import opened Machine
  import opened Agreement
  import Liveness
  import ArgReads

  // ---------------------------------------------------------------- reads

  /** Outcomes never depend on what `r` held, except that `r` itself may be left as it was. */
  ghost predicate Independent(arity: int -> int, ins: Insn, r: Reg) {
    forall env: Env, L: Loaded, s: State, t: State | env.arity == arity && Twin(s, t, {r}) :: IndependentOn(env, L, ins, r, s, t)
  }

  ghost predicate IndependentOn(env: Env, L: Loaded, ins: Insn, r: Reg, s: State, t: State)
    requires |s.regs| == |t.regs| == 11
  {
    TwinOutcome(Exec(env, L, s, ins), Exec(env, L, t, ins), {r} - Defs(ins))
  }

  /** The instruction can do what it is for: it does not write R10, it moves at least a byte, a branch leads elsewhere. */
  predicate Effective(ins: Insn) {
    match ins.op
    case Alu(_, _, _) => ins.dst != FP
    case Load(_, _) => ins.dst != FP
    case Store(size) => size > 0
    case Atomic(size, _, _) => size > 0
    case Branch(_, _, _) => ins.ref != "" || ins.off != 0
    case _ => true
  }

  /** A machine whose arithmetic, tests and atomics tell pointers from numbers. */
  function Telling(arity: int -> int): Env {
    Env((_, _, _, a: Value, b: Value) => (if a.Ptr? then 1 else 0) + (if b.Ptr? then 2 else 0), (_, _) => 0,
        (_, _, a: Value, b: Value) => a.Ptr? || b.Ptr?,
        (_, _, _, v: Value, r0: Value) => Num((if v.Ptr? then 1 else 0) + (if r0.Ptr? then 2 else 0)),
        (_, _, _) => Num(0), arity, (_, m: Memory) => Done(Num(0), m), (_, _, m: Memory) => Done(Num(0), m))
  }

  /** All registers hold `u`, but `r` holds `v`. */
  ghost function Holding(r: Reg, v: Value, u: Value): State {
    State(0, seq(11, k => if k == 10 then FramePtr(0) else if k == r then v else u), (_, _) => Frag(Num(0), 0), [], [])
  }

  const A_NUMBER := Num(0)
  const INTO_CONTEXT := Ptr(Context, 0)

  ghost predicate Tells(arity: int -> int, ins: Insn, r: Reg, u: Value) {
    !IndependentOn(Telling(arity), Loaded([], a => a, a => a), ins, r, Holding(r, A_NUMBER, u), Holding(r, INTO_CONTEXT, u))
  }

  lemma {:induction false} TellsDepends(arity: int -> int, ins: Insn, r: Reg, u: Value)
    requires Tells(arity, ins, r, u)
    ensures !Independent(arity, ins, r)
  {
    var s, t := Holding(r, A_NUMBER, u), Holding(r, INTO_CONTEXT, u);
    assert Twin(s, t, {r});
  }

  lemma {:induction false} AluTells(arity: int -> int, ins: Insn, r: Reg)
    requires ins.op.Alu? && r != FP && r in Uses(5, ins) && ins.dst != FP
    ensures Tells(arity, ins, r, A_NUMBER)
  {
    var s, t := Holding(r, A_NUMBER, A_NUMBER), Holding(r, INTO_CONTEXT, A_NUMBER);
    AluDiffers(arity, ins, r, s.regs, t.regs);
  }

  lemma {:induction false} AluDiffers(arity: int -> int, ins: Insn, r: Reg, a: seq<Value>, b: seq<Value>)
    requires ins.op.Alu? && r != FP && r in Uses(5, ins) && ins.dst != FP
    requires |a| == |b| == 11 && a == Holding(r, A_NUMBER, A_NUMBER).regs && b == Holding(r, INTO_CONTEXT, A_NUMBER).regs
    ensures AluValue(Telling(arity), ins.op, ins.off, a[ins.dst], Operand(ins, ins.op.fromReg, a)) !=
      AluValue(Telling(arity), ins.op, ins.off, b[ins.dst], Operand(ins, ins.op.fromReg, b))
  {
  }

  /** Through a number nothing is loaded or stored. */
  lemma {:induction false} AddressTells(arity: int -> int, ins: Insn, r: Reg)
    requires r != FP && ((ins.op.Load? && r == ins.src && ins.dst != FP) || ((ins.op.StoreImm? || ins.op.Store? || ins.op.Atomic?) && r == ins.dst))
    requires ins.op.Atomic? ==> !(ins.op.fetch.IntoSrc? && ins.src == FP)
    ensures Tells(arity, ins, r, INTO_CONTEXT)
  {
  }

  lemma {:induction false} StoredTells(arity: int -> int, ins: Insn, r: Reg)
    requires r != FP && ((ins.op.Store? && r == ins.src) || (ins.op.Atomic? && (r == ins.src || r == 0))) && r != ins.dst && ins.op.size > 0
    requires ins.op.Atomic? ==> !(ins.op.fetch.IntoSrc? && ins.src == FP)
    ensures Tells(arity, ins, r, INTO_CONTEXT)
  {
    var env, L := Telling(arity), Loaded([], a => a, a => a);
    var s, t := Holding(r, A_NUMBER, INTO_CONTEXT), Holding(r, INTO_CONTEXT, INTO_CONTEXT);
    var o, q := Exec(env, L, s, ins), Exec(env, L, t, ins);
    var p := s.regs[ins.dst];
    assert o.s.mem(p.region, p.off + ins.off) != q.s.mem(p.region, p.off + ins.off);
  }

  lemma {:induction false} BranchTells(arity: int -> int, ins: Insn, r: Reg)
    requires ins.op.Branch? && r != FP && r in Uses(5, ins) && (ins.ref != "" || ins.off != 0)
    requires ins.op.fromReg ==> ins.dst != FP && ins.src != FP
    ensures Tells(arity, ins, r, A_NUMBER)
  {
  }

  lemma {:induction false} CallTells(arity: int -> int, ins: Insn, r: Reg)
    requires r != FP && (ins.op.CallHelper? || ins.op.CallKfunc? || ins.op.LoadLegacy?) && r in Uses(ArityOf(arity, ins), ins)
    ensures Tells(arity, ins, r, A_NUMBER)
  {
    var env, L := Telling(arity), Loaded([], a => a, a => a);
    var s, t := Holding(r, A_NUMBER, A_NUMBER), Holding(r, INTO_CONTEXT, A_NUMBER);
    var c, d := CallOut(env, ins, s.regs), CallOut(env, ins, t.regs);
    var k := if !ins.op.LoadLegacy? then r - 1 else if r == 6 then 0 else 1;
    assert c.args[k] != d.args[k];
    var o, q := Exec(env, L, s, ins), Exec(env, L, t, ins);
    assert o.s.log == [c] && q.s.log == [d];
  }

  lemma {:induction false} ExitTells(arity: int -> int, ins: Insn)
    requires ins.op.Exit?
    ensures Tells(arity, ins, 0, A_NUMBER)
  {
  }

  /** Every register an instruction is said to read can change what it does. */
  lemma {:induction false} ReadsMatter(arity: int -> int, ins: Insn, r: Reg)
    requires r != FP && r in Uses(ArityOf(arity, ins), ins) && Effective(ins)
    requires ins.op.Atomic? ==> !(ins.op.fetch.IntoSrc? && ins.src == FP)
    requires ins.op.Branch? && ins.op.fromReg ==> ins.dst != FP && ins.src != FP
    ensures !Independent(arity, ins, r)
  {
    match ins.op {
      case Alu(_, _, _) => AluTells(arity, ins, r); TellsDepends(arity, ins, r, A_NUMBER);
      case Load(_, _) => AddressTells(arity, ins, r); TellsDepends(arity, ins, r, INTO_CONTEXT);
      case StoreImm(_) => AddressTells(arity, ins, r); TellsDepends(arity, ins, r, INTO_CONTEXT);
      case Store(_) => StoreTells(arity, ins, r);
      case Atomic(_, _, _) => StoreTells(arity, ins, r);
      case Branch(_, _, _) => BranchTells(arity, ins, r); TellsDepends(arity, ins, r, A_NUMBER);
      case CallHelper => CallTells(arity, ins, r); TellsDepends(arity, ins, r, A_NUMBER);
      case CallKfunc => CallTells(arity, ins, r); TellsDepends(arity, ins, r, A_NUMBER);
      case LoadLegacy => CallTells(arity, ins, r); TellsDepends(arity, ins, r, A_NUMBER);
      case Exit => ExitTells(arity, ins); TellsDepends(arity, ins, r, A_NUMBER);
    }
  }

  lemma {:induction false} StoreTells(arity: int -> int, ins: Insn, r: Reg)
    requires (ins.op.Store? || ins.op.Atomic?) && r != FP && r in Uses(5, ins) && ins.op.size > 0
    requires ins.op.Atomic? ==> !(ins.op.fetch.IntoSrc? && ins.src == FP)
    ensures !Independent(arity, ins, r)
  {
    if r == ins.dst {
      AddressTells(arity, ins, r);
    } else {
      StoredTells(arity, ins, r);
    }
    TellsDepends(arity, ins, r, INTO_CONTEXT);
  }

  // ---------------------------------------------------------------- writes

  /** The register an atomic may bring the old value to. */
  predicate Fetches(ins: Insn, r: Reg) {
    ins.op.Atomic? && ((ins.op.fetch.IntoSrc? && r == ins.src) || (ins.op.fetch.IntoR0? && r == 0))
  }

  /** Every register an instruction is not said to write is kept, short of calls into the program and returns. */
  lemma {:induction false} OthersKept(env: Env, L: Loaded, s: State, ins: Insn, r: Reg)
    requires |s.regs| == 11 && r != FP && r !in Defs(ins) && !Fetches(ins, r) && !ins.op.CallFunc? && !ins.op.Exit?
    ensures var o := Exec(env, L, s, ins);
      o.Running? && ((ins.op.CallHelper? || ins.op.CallKfunc? || ins.op.LoadLegacy?) ==> env.ext(CallOut(env, ins, s.regs), s.mem).Done?) ==>
        |o.s.regs| == 11 && o.s.regs[r] == s.regs[r]
  {
  }

  // ---------------------------------------------------------------- the tables of the two analyses

  /** Liveness reads what the machine reads, and more only where it says so: the source field of a unary operation, all
      registers at a legacy load, and not R0 at an atomic, which is no argument. */
  lemma {:induction false} LivenessReads(arity: int -> int, ins: Insn, r: Reg)
    requires r in Args
    ensures r in Liveness.Reads(arity, ins) <==>
      r in Uses(ArityOf(arity, ins), ins) || ins.op.LoadLegacy? || (ins.op.Alu? && ins.op.fromReg && ins.op.alu.Unary? && r == ins.src)
    ensures r in Liveness.Writes(ins) <==> if ins.op.LoadLegacy? then r == ins.dst else r in Defs(ins)
  {
  }

  /** Argument reads are the machine's, and all arguments at a legacy load. */
  lemma {:induction false} ArgumentReads(arity: int -> int, ins: Insn, r: Reg)
    requires r in Args
    ensures r in ArgReads.Use(arity, ins) <==> r in Uses(ArityOf(arity, ins), ins) || ins.op.LoadLegacy?
    ensures r in ArgReads.Def(ins) <==> r in Defs(ins)
  {
  }
}
