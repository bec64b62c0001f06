/** When two runs of one program stay together although some argument registers, or the
    stack below an audited bound, differ. */
module Agreement {
  import opened Machine

  const Args: set<Reg> := {1, 2, 3, 4, 5}
  const CallerSaved: set<Reg> := {0, 1, 2, 3, 4, 5}
  const AllRegs: set<Reg> := {0, 1, 2, 3, 4, 5, 6, 7, 8, 9, 10}

  ghost predicate AgreeExcept(a: seq<Value>, b: seq<Value>, D: set<Reg>) {
    |a| == |b| == 11 && forall r: Reg | r !in D :: a[r] == b[r]
  }

  /** States that differ at most in the registers `D`. */
  ghost predicate Twin(s: State, t: State, D: set<Reg>) {
    s.pc == t.pc && s.mem == t.mem && s.calls == t.calls && s.log == t.log && AgreeExcept(s.regs, t.regs, D)
  }

  ghost predicate TwinOutcome(o: Outcome, q: Outcome, D: set<Reg>) {
    match o
    case Running(s) => q.Running? && Twin(s, q.s, D)
    case Halted(_, _, _) => o == q
    case Stuck => q.Stuck?
  }

  /** Registers an instruction reads.  What a call to another function reads is up to that function. */
  function Uses(arity: nat, ins: Insn): set<Reg> {
    match ins.op
    case Alu(_, op, fromReg) =>
      (if op.Mov? then {} else {ins.dst}) + (if fromReg && !op.Unary? then {ins.src} else {})
    case LoadImm64(_) => {}
    case LoadFunc => {}
    case LoadLegacy => {6, ins.src}
    case Load(_, _) => {ins.src}
    case StoreImm(_) => {ins.dst}
    case Store(_) => {ins.dst, ins.src}
    case Atomic(_, _, _) => {ins.dst, ins.src, 0}
    case Goto => {}
    case GotoLong => {}
    case GotoIndirect => {}
    case Branch(_, _, fromReg) => {ins.dst} + (if fromReg then {ins.src} else {})
    case CallHelper => set r | r in Args && r <= arity
    case CallKfunc => Args
    case CallFunc => {}
    case Exit => {0}
  }

  /** Registers an instruction always overwrites. */
  function Defs(ins: Insn): set<Reg> {
    match ins.op
    case Alu(_, _, _) => {ins.dst}
    case LoadImm64(_) => {ins.dst}
    case LoadFunc => {ins.dst}
    case Load(_, _) => {ins.dst}
    case LoadLegacy => CallerSaved
    case CallHelper => CallerSaved
    case CallKfunc => CallerSaved
    case CallFunc => CallerSaved
    case _ => {}
  }

  /** Argument registers that may still differ after an instruction: a callee starts with
      its caller's argument registers, and a return leaves none of its own behind. */
  function StillDiffer(ins: Insn, D: set<Reg>): set<Reg> {
    if ins.op.CallFunc? then D else if ins.op.Exit? then {} else D - Defs(ins)
  }

  lemma {:induction false} ExternalTwins(env: Env, L: Loaded, s: State, t: State, ins: Insn, D: set<Reg>)
    requires ins.op.LoadLegacy? || ins.op.CallHelper? || ins.op.CallKfunc?
    requires D <= Args && Twin(s, t, D) && Uses(Arity(env, ins), ins) !! D
    ensures TwinOutcome(Exec(env, L, s, ins), Exec(env, L, t, ins), {})
  {
    var n := Arity(env, ins);
    if ins.op.LoadLegacy? {
      assert ins.src in Uses(n, ins);
    } else {
      assert forall r: Reg | 1 <= r <= n :: r in Uses(n, ins);
      assert s.regs[1..1 + n] == t.regs[1..1 + n];
    }
    assert CallOut(env, ins, s.regs) == CallOut(env, ins, t.regs);
    assert SaveFrame(s, s.pc + 1, Plain) == SaveFrame(t, t.pc + 1, Plain);
    match env.ext(CallOut(env, ins, s.regs), s.mem) {
      case Done(_, _) =>
      case Leave(r0, m) => ReturnKeepsFrame(env, L, s.calls, r0, m, s.log + [CallOut(env, ins, s.regs)]);
      case Invoke(_, _, _, _) =>
    }
  }

  lemma {:induction false} RegisterTwins(env: Env, L: Loaded, s: State, t: State, ins: Insn, D: set<Reg>)
    requires ins.op.Alu? || ins.op.LoadImm64? || ins.op.LoadFunc? || ins.op.Load?
    requires D <= Args && Twin(s, t, D) && Uses(Arity(env, ins), ins) !! D
    ensures TwinOutcome(Exec(env, L, s, ins), Exec(env, L, t, ins), D - Defs(ins))
  {
    if ins.op.Alu? {
      var a, a', b, b' := s.regs[ins.dst], t.regs[ins.dst], Operand(ins, ins.op.fromReg, s.regs), Operand(ins, ins.op.fromReg, t.regs);
      assert AluValue(env, ins.op, ins.off, a, b) == AluValue(env, ins.op, ins.off, a', b');
    }
  }

  lemma {:induction false} StoreTwins(env: Env, L: Loaded, s: State, t: State, ins: Insn, D: set<Reg>)
    requires ins.op.StoreImm? || ins.op.Store? || ins.op.Atomic?
    requires D <= Args && Twin(s, t, D) && Uses(Arity(env, ins), ins) !! D
    ensures TwinOutcome(Exec(env, L, s, ins), Exec(env, L, t, ins), D)
  {
    assert ins.dst in Uses(Arity(env, ins), ins);
    if !ins.op.StoreImm? {
      assert ins.src in Uses(Arity(env, ins), ins);
    }
  }

  lemma {:induction false} JumpTwins(env: Env, L: Loaded, s: State, t: State, ins: Insn, D: set<Reg>)
    requires ins.op.Goto? || ins.op.GotoLong? || ins.op.GotoIndirect? || ins.op.Branch?
    requires D <= Args && Twin(s, t, D) && Uses(Arity(env, ins), ins) !! D
    ensures TwinOutcome(Exec(env, L, s, ins), Exec(env, L, t, ins), D)
  {
  }

  lemma {:induction false} EnterTwins(env: Env, L: Loaded, s: State, t: State, ins: Insn, D: set<Reg>)
    requires D <= Args && Twin(s, t, D) && ins.op.CallFunc?
    ensures TwinOutcome(Exec(env, L, s, ins), Exec(env, L, t, ins), D)
  {
    assert SaveFrame(s, s.pc + 1, Plain) == SaveFrame(t, t.pc + 1, Plain);
    var a, b := EnterFunc(L, s, ins).s.regs, EnterFunc(L, t, ins).s.regs;
    assert forall r: Reg | r !in D :: a[r] == b[r];
  }

  lemma {:induction false} ExitTwins(env: Env, L: Loaded, s: State, t: State, ins: Insn, D: set<Reg>)
    requires D <= Args && Twin(s, t, D) && ins.op.Exit?
    ensures TwinOutcome(Exec(env, L, s, ins), Exec(env, L, t, ins), {})
  {
    ReturnKeepsFrame(env, L, s.calls, s.regs[0], s.mem, s.log);
  }

  /** One instruction that reads no differing register keeps the runs together: same control
      flow, same stores, same helper calls, same result. */
  lemma {:induction false} StepTwins(env: Env, L: Loaded, s: State, t: State, D: set<Reg>)
    requires D <= Args && Twin(s, t, D)
    requires var i := IndexOf(L.insns, s.pc); i >= 0 ==> Uses(Arity(env, L.insns[i]), L.insns[i]) !! D
    ensures var i := IndexOf(L.insns, s.pc);
      if i < 0 then Step(env, L, s) == Step(env, L, t) == Stuck
      else TwinOutcome(Step(env, L, s), Step(env, L, t), StillDiffer(L.insns[i], D))
  {
    var i := IndexOf(L.insns, s.pc);
    if i >= 0 {
      var ins := L.insns[i];
      match ins.op {
        case LoadLegacy => ExternalTwins(env, L, s, t, ins, D);
        case CallHelper => ExternalTwins(env, L, s, t, ins, D);
        case CallKfunc => ExternalTwins(env, L, s, t, ins, D);
        case Alu(_, _, _) => RegisterTwins(env, L, s, t, ins, D);
        case LoadImm64(_) => RegisterTwins(env, L, s, t, ins, D);
        case LoadFunc => RegisterTwins(env, L, s, t, ins, D);
        case Load(_, _) => RegisterTwins(env, L, s, t, ins, D);
        case StoreImm(_) => StoreTwins(env, L, s, t, ins, D);
        case Store(_) => StoreTwins(env, L, s, t, ins, D);
        case Atomic(_, _, _) => StoreTwins(env, L, s, t, ins, D);
        case Goto => JumpTwins(env, L, s, t, ins, D);
        case GotoLong => JumpTwins(env, L, s, t, ins, D);
        case GotoIndirect => JumpTwins(env, L, s, t, ins, D);
        case Branch(_, _, _) => JumpTwins(env, L, s, t, ins, D);
        case CallFunc => EnterTwins(env, L, s, t, ins, D);
        case Exit => ExitTwins(env, L, s, t, ins, D);
      }
    }
  }

  // ---------------------------------------------------------------- below the audited bound

  /** Whether an address is at or above the audited stack bound; only frames have one. */
  ghost predicate Above(r: Region, at: int, lowest: int) {
    r.Frame? ==> lowest <= at
  }

  ghost predicate SameAbove(a: Memory, b: Memory, lowest: int) {
    forall r: Region, o: int | Above(r, o, lowest) :: a(r, o) == b(r, o)
  }

  ghost predicate SameExtAbove(o: ExtOut, q: ExtOut, lowest: int) {
    match o
    case Done(r0, m) => q.Done? && q.r0 == r0 && SameAbove(m, q.mem, lowest)
    case Leave(r0, m) => q.Leave? && q.r0 == r0 && SameAbove(m, q.mem, lowest)
    case Invoke(code, args, m, token) =>
      q.Invoke? && q.code == code && q.args == args && q.token == token && SameAbove(m, q.mem, lowest)
  }

  /** A call the kernel serves without looking below the bound, nor leaving anything of it elsewhere. */
  ghost predicate CallStaysAbove(env: Env, call: ExtCall, mem: Memory, lowest: int) {
    forall m: Memory | SameAbove(mem, m, lowest) :: SameExtAbove(env.ext(call, mem), env.ext(call, m), lowest)
  }

  ghost predicate ReturnStaysAbove(env: Env, calls: seq<Saved>, r0: Value, mem: Memory, lowest: int) {
    calls != [] && calls[|calls| - 1].resume.Token? ==>
      var k := calls[|calls| - 1].resume.k;
      forall m: Memory | SameAbove(mem, m, lowest) :: SameExtAbove(env.resume(k, r0, mem), env.resume(k, r0, m), lowest)
  }

  /** The audit, for one step: no access through any pointer reaches below the bound. */
  ghost predicate StaysAbove(env: Env, s: State, ins: Insn, lowest: int)
    requires |s.regs| == 11
  {
    match ins.op
    case Load(_, _) => s.regs[ins.src].Ptr? ==> Above(s.regs[ins.src].region, s.regs[ins.src].off + ins.off, lowest)
    case StoreImm(_) => s.regs[ins.dst].Ptr? ==> Above(s.regs[ins.dst].region, s.regs[ins.dst].off + ins.off, lowest)
    case Store(_) => s.regs[ins.dst].Ptr? ==> Above(s.regs[ins.dst].region, s.regs[ins.dst].off + ins.off, lowest)
    case Atomic(_, _, _) => s.regs[ins.dst].Ptr? ==> Above(s.regs[ins.dst].region, s.regs[ins.dst].off + ins.off, lowest)
    case Exit => ReturnStaysAbove(env, s.calls, s.regs[0], s.mem, lowest)
    case LoadLegacy => ExternalStaysAbove(env, s, ins, lowest)
    case CallHelper => ExternalStaysAbove(env, s, ins, lowest)
    case CallKfunc => ExternalStaysAbove(env, s, ins, lowest)
    case _ => true
  }

  ghost predicate ExternalStaysAbove(env: Env, s: State, ins: Insn, lowest: int)
    requires |s.regs| == 11
  {
    var call := CallOut(env, ins, s.regs);
    var out := env.ext(call, s.mem);
    CallStaysAbove(env, call, s.mem, lowest) && (out.Leave? ==> ReturnStaysAbove(env, s.calls, out.r0, out.mem, lowest))
  }

  /** States that differ at most below the bound. */
  ghost predicate Shadow(s: State, t: State, lowest: int) {
    s.pc == t.pc && s.regs == t.regs && s.calls == t.calls && s.log == t.log && SameAbove(s.mem, t.mem, lowest)
  }

  ghost predicate ShadowOutcome(o: Outcome, q: Outcome, lowest: int) {
    match o
    case Running(s) => q.Running? && Shadow(s, q.s, lowest)
    case Halted(r, m, log) => q.Halted? && q.result == r && q.log == log && SameAbove(m, q.mem, lowest)
    case Stuck => q.Stuck?
  }

  lemma {:induction false} LoadsAgree(env: Env, a: Memory, b: Memory, r: Region, at: int, size: nat, signed: bool, lowest: int)
    requires SameAbove(a, b, lowest) && Above(r, at, lowest)
    ensures LoadBytes(env, a, r, at, size, signed) == LoadBytes(env, b, r, at, size, signed)
  {
    forall i | 0 <= i < size
      ensures Bytes(a, r, at, size)[i] == Bytes(b, r, at, size)[i]
    {
      assert Above(r, at + i, lowest);
    }
    assert Bytes(a, r, at, size) == Bytes(b, r, at, size);
  }

  lemma {:induction false} StoresAgree(a: Memory, b: Memory, r: Region, at: int, size: nat, v: Value, lowest: int)
    requires SameAbove(a, b, lowest)
    ensures SameAbove(StoreBytes(a, r, at, size, v), StoreBytes(b, r, at, size, v), lowest)
  {
  }

  lemma {:induction false} ReturnShadows(env: Env, L: Loaded, calls: seq<Saved>, r0: Value, m: Memory, m': Memory, log: seq<ExtCall>, lowest: int)
    requires SameAbove(m, m', lowest) && ReturnStaysAbove(env, calls, r0, m, lowest)
    ensures ShadowOutcome(Return(env, L, calls, r0, m, log), Return(env, L, calls, r0, m', log), lowest)
  {
  }

  lemma {:induction false} ExternalShadows(env: Env, L: Loaded, s: State, t: State, ins: Insn, lowest: int)
    requires |s.regs| == 11 && Shadow(s, t, lowest) && ExternalStaysAbove(env, s, ins, lowest)
    ensures ShadowOutcome(External(env, L, s, ins), External(env, L, t, ins), lowest)
  {
    var call := CallOut(env, ins, s.regs);
    var o, q := env.ext(call, s.mem), env.ext(call, t.mem);
    assert SameExtAbove(o, q, lowest);
    if o.Leave? {
      ReturnShadows(env, L, s.calls, o.r0, o.mem, q.mem, s.log + [call], lowest);
    }
  }

  lemma {:induction false} MemoryShadows(env: Env, L: Loaded, s: State, t: State, ins: Insn, lowest: int)
    requires ins.op.Load? || ins.op.StoreImm? || ins.op.Store? || ins.op.Atomic?
    requires |s.regs| == 11 && Shadow(s, t, lowest) && StaysAbove(env, s, ins, lowest)
    ensures ShadowOutcome(Exec(env, L, s, ins), Exec(env, L, t, ins), lowest)
  {
    var p := s.regs[if ins.op.Load? then ins.src else ins.dst];
    if p.Ptr? {
      var at := p.off + ins.off;
      match ins.op {
        case Load(size, signed) => LoadsAgree(env, s.mem, t.mem, p.region, at, size, signed, lowest);
        case StoreImm(size) => StoresAgree(s.mem, t.mem, p.region, at, size, Num(ins.imm), lowest);
        case Store(size) => StoresAgree(s.mem, t.mem, p.region, at, size, s.regs[ins.src], lowest);
        case Atomic(_, _, _) => AtomicShadows(env, L, s, t, ins, lowest);
      }
    }
  }

  lemma {:induction false} AtomicShadows(env: Env, L: Loaded, s: State, t: State, ins: Insn, lowest: int)
    requires ins.op.Atomic? && |s.regs| == 11 && Shadow(s, t, lowest) && StaysAbove(env, s, ins, lowest) && s.regs[ins.dst].Ptr?
    ensures ShadowOutcome(Exec(env, L, s, ins), Exec(env, L, t, ins), lowest)
  {
    var p, size := s.regs[ins.dst], ins.op.size;
    var at := p.off + ins.off;
    LoadsAgree(env, s.mem, t.mem, p.region, at, size, false, lowest);
    var was := LoadBytes(env, s.mem, p.region, at, size, false);
    StoresAgree(s.mem, t.mem, p.region, at, size, env.atomic(ins.op.code, size, was, s.regs[ins.src], s.regs[0]), lowest);
  }

  /** A step the audit covers does not notice what lies below the bound. */
  lemma {:induction false} StepShadows(env: Env, L: Loaded, s: State, t: State, lowest: int)
    requires Shadow(s, t, lowest) && |s.regs| == 11
    requires var i := IndexOf(L.insns, s.pc); i >= 0 ==> StaysAbove(env, s, L.insns[i], lowest)
    ensures ShadowOutcome(Step(env, L, s), Step(env, L, t), lowest)
  {
    var i := IndexOf(L.insns, s.pc);
    if i >= 0 {
      var ins := L.insns[i];
      match ins.op {
        case LoadLegacy => ExternalShadows(env, L, s, t, ins, lowest);
        case CallHelper => ExternalShadows(env, L, s, t, ins, lowest);
        case CallKfunc => ExternalShadows(env, L, s, t, ins, lowest);
        case Exit => ReturnShadows(env, L, s.calls, s.regs[0], s.mem, t.mem, s.log, lowest);
        case Load(_, _) => MemoryShadows(env, L, s, t, ins, lowest);
        case StoreImm(_) => MemoryShadows(env, L, s, t, ins, lowest);
        case Store(_) => MemoryShadows(env, L, s, t, ins, lowest);
        case Atomic(_, _, _) => MemoryShadows(env, L, s, t, ins, lowest);
        case Alu(_, _, _) =>
        case LoadImm64(_) =>
        case LoadFunc =>
        case Goto =>
        case GotoLong =>
        case GotoIndirect =>
        case Branch(_, _, _) =>
        case CallFunc =>
      }
    }
  }
}
