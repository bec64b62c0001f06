/** The BPF instruction set the tool rewrites and analyses, and what it does.

    Instructions keep the fields the rewriter reads and patches: opcode, registers,
    offset, constant, symbolic reference and symbol.  Program counters are raw slots,
    so a 64-bit immediate load occupies two (section 5.4 of RFC 9669).

    Memory is split into regions (one per call frame, the program context, other
    kernel objects), so a pointer can only reach the region it was formed from, which
    is what the kernel verifier guarantees.  A byte remembers which value it is part
    of, so a full-width spill and fill returns the value, pointers included.
    Helpers, other ALU operations and map addresses are the parameter `Env`. */
module Machine {

  /** Why the rewriter or the checker refuses an input. */
  datatype Refusal =
    | BadRequest | BadSite | NotABoundary | NotASubprogram | Malformed | AlreadyResolved | Ambiguous | Unresolved
    | UnknownReference | Unsupported | Overflow | SpillOutsideStack | BelowAuditedBound | Collision | Recursive | LeavesProgram

  datatype Result<+T> = Ok(value: T) | Refused(why: Refusal)

  // ---------------------------------------------------------------- instructions

  type Reg = r: int | 0 <= r <= 10

  const FP: Reg := 10

  datatype AluOp = Mov | Add | Sub | Unary(code: nat) | OtherAlu(code: nat)   // Unary: negate and byte swap

  datatype Fetch = NoFetch | IntoSrc | IntoR0

  datatype Op =
    | Alu(wide: bool, alu: AluOp, fromReg: bool)
    | LoadImm64(isMap: bool)
    | LoadFunc                                       // a function address, for a callback argument
    | LoadLegacy                                     // LD_ABS and LD_IND
    | Load(size: nat, signed: bool)
    | StoreImm(size: nat)
    | Store(size: nat)
    | Atomic(size: nat, code: nat, fetch: Fetch)
    | Goto
    | GotoLong
    | GotoIndirect
    | Branch(narrow: bool, test: nat, fromReg: bool)
    | CallHelper
    | CallKfunc
    | CallFunc
    | Exit

  /** Whether BTF marks the instruction as a function start, and of what linkage. */
  datatype Linkage = NotAFunction | StaticFunc | GlobalFunc

  datatype Insn = Insn(op: Op, dst: Reg, src: Reg, off: int, imm: int, ref: string, sym: string, fn: Linkage)

  function Width(ins: Insn): (w: int)
    ensures 1 <= w <= 2
  {
    if ins.op.LoadImm64? || ins.op.LoadFunc? then 2 else 1
  }

  /** The raw slot of instruction `i`, or of the end of the program for `i == |p|`. */
  function Slot(p: seq<Insn>, i: nat): (s: nat)
    requires i <= |p|
    ensures i <= s <= 2 * i
  {
    if i == 0 then 0 else Slot(p, i - 1) + Width(p[i - 1])
  }

  function SearchSlot(p: seq<Insn>, pc: int, n: nat): (i: int)
    requires n <= |p|
    ensures -1 <= i < n
    ensures i >= 0 ==> Slot(p, i) == pc
    ensures i < 0 ==> forall j | 0 <= j < n :: Slot(p, j) != pc
  {
    if n == 0 then -1 else if Slot(p, n - 1) == pc then n - 1 else SearchSlot(p, pc, n - 1)
  }

  /** The instruction at raw slot `pc`, or -1 when `pc` is not an instruction boundary. */
  function IndexOf(p: seq<Insn>, pc: int): (i: int)
    ensures -1 <= i < |p|
    ensures i >= 0 ==> Slot(p, i) == pc
    ensures i < 0 ==> forall j | 0 <= j < |p| :: Slot(p, j) != pc
  {
    SearchSlot(p, pc, |p|)
  }

  lemma {:induction false} SlotIncreases(p: seq<Insn>, i: nat, j: nat)
    requires i < j <= |p|
    ensures Slot(p, i) + Width(p[i]) <= Slot(p, j)
    decreases j
  {
    if i + 1 < j {
      SlotIncreases(p, i, j - 1);
    }
  }

  lemma {:induction false} IndexOfSlot(p: seq<Insn>, i: nat)
    requires i < |p|
    ensures IndexOf(p, Slot(p, i)) == i
  {
    var j := IndexOf(p, Slot(p, i));
    if j < i {
      if j >= 0 { SlotIncreases(p, j, i); }
    } else if j > i {
      SlotIncreases(p, i, j);
    }
  }

  lemma {:induction false} NextSlot(p: seq<Insn>, i: nat)
    requires i < |p|
    ensures Slot(p, i + 1) == Slot(p, i) + Width(p[i])
    ensures IndexOf(p, Slot(p, i) + Width(p[i])) == (if i + 1 < |p| then i + 1 else -1)
  {
    if i + 1 < |p| {
      IndexOfSlot(p, i + 1);
    } else {
      var j := IndexOf(p, Slot(p, i) + Width(p[i]));
      if j >= 0 { SlotIncreases(p, j, i + 1); }
    }
  }

  function SearchSym(p: seq<Insn>, name: string, n: nat): (i: int)
    requires n <= |p|
    ensures -1 <= i < n
    ensures i >= 0 ==> p[i].sym == name
    ensures i < 0 ==> forall j | 0 <= j < n :: p[j].sym != name
  {
    if n == 0 then -1 else if p[n - 1].sym == name then n - 1 else SearchSym(p, name, n - 1)
  }

  /** The instruction carrying symbol `name`, or -1. */
  function FindSym(p: seq<Insn>, name: string): (i: int)
    ensures -1 <= i < |p|
    ensures i >= 0 ==> p[i].sym == name
    ensures i < 0 ==> forall j | 0 <= j < |p| :: p[j].sym != name
  {
    SearchSym(p, name, |p|)
  }

  /** Where a branch, call or callback load at `pc` leads: a symbol, or the next slot plus
      the constant for function references and long jumps, plus the offset otherwise
      (section 4.3 of RFC 9669).  -1 stands for an unresolved symbol. */
  function Target(p: seq<Insn>, pc: int, ins: Insn): int {
    if ins.ref != "" then
      var i := FindSym(p, ins.ref);
      if i < 0 then -1 else Slot(p, i)
    else if ins.op.CallFunc? || ins.op.LoadFunc? || ins.op.GotoLong? then pc + 1 + ins.imm
    else pc + 1 + ins.off
  }

  // ---------------------------------------------------------------- values, memory

  datatype Region = Frame(depth: nat) | Context | Object(id: nat)

  datatype Value = Undef | Num(n: int) | Ptr(region: Region, off: int) | Func(addr: int)

  /** The k-th byte of a stored value. */
  datatype Frag = Frag(v: Value, k: int)

  type Memory = (Region, int) -> Frag

  function StoreBytes(m: Memory, r: Region, at: int, size: nat, v: Value): Memory {
    (r', a) => if r' == r && at <= a < at + size then Frag(v, a - at) else m(r', a)
  }

  function Bytes(m: Memory, r: Region, at: int, size: nat): (s: seq<Frag>)
    ensures |s| == size
    ensures forall i | 0 <= i < size :: s[i] == m(r, at + i)
  {
    seq(size, i requires 0 <= i < size => m(r, at + i))
  }

  ghost predicate Whole(s: seq<Frag>) {
    |s| == 8 && forall i | 0 <= i < 8 :: s[i] == Frag(s[0].v, i)
  }

  ghost function LoadBytes(env: Env, m: Memory, r: Region, at: int, size: nat, signed: bool): Value {
    var s := Bytes(m, r, at, size);
    if Whole(s) then s[0].v else Num(env.mix(s, signed))
  }

  /** A helper, kernel function or legacy packet load, with the arguments it reads. */
  datatype ExtKind = Helper | Kfunc | Legacy
  datatype ExtCall = ExtCall(kind: ExtKind, id: int, args: seq<Value>)

  /** What such a call does: return, leave the program (a tail call), or run the
      callback at a code address first and be resumed with its result. */
  datatype ExtOut =
    | Done(r0: Value, mem: Memory)
    | Leave(r0: Value, mem: Memory)
    | Invoke(code: int, args: seq<Value>, mem: Memory, token: int)

  datatype Env = Env(
    alu: (AluOp, bool, int, Value, Value) -> int,
    mix: (seq<Frag>, bool) -> int,
    cond: (nat, bool, Value, Value) -> bool,
    atomic: (nat, nat, Value, Value, Value) -> Value,
    literal: (bool, string, int) -> Value,
    arity: int -> int,
    ext: (ExtCall, Memory) -> ExtOut,
    resume: (int, Value, Memory) -> ExtOut)

  /** How many argument registers a helper reads; unknown helpers and kernel functions read all five. */
  function ArityOf(arity: int -> int, ins: Insn): (n: nat)
    ensures n <= 5
  {
    if !ins.op.CallHelper? || arity(ins.imm) > 5 || arity(ins.imm) < 0 then 5 else arity(ins.imm)
  }

  function Arity(env: Env, ins: Insn): (n: nat)
    ensures n <= 5
  {
    ArityOf(env.arity, ins)
  }

  // ---------------------------------------------------------------- states

  /** A caller waiting for its callee: where to continue, R6-R9, and the helper to resume
      when the callee is a callback. */
  datatype Resume = Plain | Token(k: int)
  datatype Saved = Saved(ret: int, r6: Value, r7: Value, r8: Value, r9: Value, resume: Resume)

  datatype State = State(pc: int, regs: seq<Value>, mem: Memory, calls: seq<Saved>, log: seq<ExtCall>)

  datatype Outcome = Running(s: State) | Halted(result: Value, mem: Memory, log: seq<ExtCall>) | Stuck

  /** A loaded program: its instructions and where the loader put each function. */
  datatype Loaded = Loaded(insns: seq<Insn>, place: int -> int, at: int -> int)

  function FramePtr(depth: nat): Value {
    Ptr(Frame(depth), 0)
  }

  ghost predicate WellFormed(s: State) {
    |s.regs| == 11 && s.regs[FP] == FramePtr(|s.calls|)
  }

  // ---------------------------------------------------------------- one step

  function Wrap64(n: int): int {
    (n + 0x8000_0000_0000_0000) % 0x1_0000_0000_0000_0000 - 0x8000_0000_0000_0000
  }

  function Low32(n: int): int {
    n % 0x1_0000_0000
  }

  function AluValue(env: Env, op: Op, off: int, a: Value, b: Value): Value
    requires op.Alu?
  {
    var other := Num(env.alu(op.alu, op.wide, off, if op.alu.Mov? then Undef else a, if op.alu.Unary? then Undef else b));
    match op.alu
    case Mov =>
      if off != 0 then other
      else if op.wide then b
      else if b.Num? then Num(Low32(b.n)) else other
    case Add =>
      if !op.wide then other
      else if a.Num? && b.Num? then Num(Wrap64(a.n + b.n))
      else if a.Ptr? && b.Num? then Ptr(a.region, a.off + b.n)
      else if a.Num? && b.Ptr? then Ptr(b.region, b.off + a.n)
      else other
    case Sub =>
      if !op.wide then other
      else if a.Num? && b.Num? then Num(Wrap64(a.n - b.n))
      else if a.Ptr? && b.Num? then Ptr(a.region, a.off - b.n)
      else other
    case Unary(_) => other
    case OtherAlu(_) => other
  }

  function Operand(ins: Insn, fromReg: bool, regs: seq<Value>): Value
    requires |regs| == 11
  {
    if fromReg then regs[ins.src] else Num(ins.imm)
  }

  /** Writing R10 is rejected by the verifier. */
  function SetReg(s: State, r: Reg, v: Value, w: int): Outcome
    requires |s.regs| == 11
  {
    if r == FP then Stuck else Running(s.(pc := s.pc + w, regs := s.regs[r := v]))
  }

  function EntryRegs(r1: Value, r2: Value, r3: Value, r4: Value, r5: Value, depth: nat): seq<Value> {
    [Undef, r1, r2, r3, r4, r5, Undef, Undef, Undef, Undef, FramePtr(depth)]
  }

  function ReturnRegs(r0: Value, c: Saved, depth: nat): seq<Value> {
    [r0, Undef, Undef, Undef, Undef, Undef, c.r6, c.r7, c.r8, c.r9, FramePtr(depth)]
  }

  function SaveFrame(s: State, ret: int, resume: Resume): Saved
    requires |s.regs| == 11
  {
    Saved(ret, s.regs[6], s.regs[7], s.regs[8], s.regs[9], resume)
  }

  /** A callback starts in a new frame above `c`, which resumes the helper afterwards. */
  function StartCallback(L: Loaded, c: Saved, calls: seq<Saved>, out: ExtOut, log: seq<ExtCall>): Outcome
    requires out.Invoke?
  {
    if |out.args| != 5 then Stuck
    else
      Running(State(L.at(out.code),
                    EntryRegs(out.args[0], out.args[1], out.args[2], out.args[3], out.args[4], |calls| + 1),
                    out.mem, calls + [c.(resume := Token(out.token))], log))
  }

  function Return(env: Env, L: Loaded, calls: seq<Saved>, r0: Value, mem: Memory, log: seq<ExtCall>): Outcome {
    if calls == [] then Halted(r0, mem, log)
    else
      var c, rest := calls[|calls| - 1], calls[..|calls| - 1];
      if c.resume.Plain? then Running(State(c.ret, ReturnRegs(r0, c, |rest|), mem, rest, log))
      else
        match env.resume(c.resume.k, r0, mem) {
          case Done(v, m) => Running(State(c.ret, ReturnRegs(v, c, |rest|), m, rest, log))
          case Invoke(code, args, m, token) => StartCallback(L, c, rest, Invoke(code, args, m, token), log)
          case Leave(_, _) => Stuck
        }
  }

  function CallOut(env: Env, ins: Insn, regs: seq<Value>): ExtCall
    requires |regs| == 11
  {
    if ins.op.LoadLegacy? then ExtCall(Legacy, ins.imm, [regs[6], regs[ins.src]])
    else ExtCall(if ins.op.CallHelper? then Helper else Kfunc, ins.imm, regs[1..1 + Arity(env, ins)])
  }

  function External(env: Env, L: Loaded, s: State, ins: Insn): Outcome
    requires |s.regs| == 11
  {
    var call := CallOut(env, ins, s.regs);
    var log := s.log + [call];
    var c := SaveFrame(s, s.pc + 1, Plain);
    match env.ext(call, s.mem)
    case Done(r0, m) => Running(State(c.ret, ReturnRegs(r0, c, |s.calls|), m, s.calls, log))
    case Leave(r0, m) => Return(env, L, s.calls, r0, m, log)
    case Invoke(code, args, m, token) => StartCallback(L, c, s.calls, Invoke(code, args, m, token), log)
  }

  function EnterFunc(L: Loaded, s: State, ins: Insn): Outcome
    requires |s.regs| == 11
  {
    Running(State(Target(L.insns, s.pc, ins),
                  EntryRegs(s.regs[1], s.regs[2], s.regs[3], s.regs[4], s.regs[5], |s.calls| + 1),
                  s.mem, s.calls + [SaveFrame(s, s.pc + 1, Plain)], s.log))
  }

  ghost function DoAtomic(env: Env, s: State, ins: Insn): Outcome
    requires |s.regs| == 11 && ins.op.Atomic?
  {
    var p := s.regs[ins.dst];
    if !p.Ptr? then Stuck
    else
      var was := LoadBytes(env, s.mem, p.region, p.off + ins.off, ins.op.size, false);
      var v := env.atomic(ins.op.code, ins.op.size, was, s.regs[ins.src], s.regs[0]);
      var s' := s.(mem := StoreBytes(s.mem, p.region, p.off + ins.off, ins.op.size, v));
      match ins.op.fetch
      case NoFetch => Running(s'.(pc := s.pc + 1))
      case IntoSrc => SetReg(s', ins.src, was, 1)
      case IntoR0 => SetReg(s', 0, was, 1)
  }

  function Jump(s: State, to: int): Outcome {
    Running(s.(pc := to))
  }

  ghost function Exec(env: Env, L: Loaded, s: State, ins: Insn): Outcome
    requires |s.regs| == 11
  {
    match ins.op
    case Alu(_, _, fromReg) =>
      SetReg(s, ins.dst, AluValue(env, ins.op, ins.off, s.regs[ins.dst], Operand(ins, fromReg, s.regs)), 1)
    case LoadImm64(isMap) => SetReg(s, ins.dst, env.literal(isMap, ins.ref, ins.imm), 2)
    case LoadFunc => SetReg(s, ins.dst, Func(L.place(Target(L.insns, s.pc, ins))), 2)
    case Load(size, signed) =>
      var p := s.regs[ins.src];
      if p.Ptr? then SetReg(s, ins.dst, LoadBytes(env, s.mem, p.region, p.off + ins.off, size, signed), 1) else Stuck
    case StoreImm(size) =>
      var p := s.regs[ins.dst];
      if p.Ptr?
      then Running(s.(pc := s.pc + 1, mem := StoreBytes(s.mem, p.region, p.off + ins.off, size, Num(ins.imm))))
      else Stuck
    case Store(size) =>
      var p := s.regs[ins.dst];
      if p.Ptr?
      then Running(s.(pc := s.pc + 1, mem := StoreBytes(s.mem, p.region, p.off + ins.off, size, s.regs[ins.src])))
      else Stuck
    case Atomic(_, _, _) => DoAtomic(env, s, ins)
    case Goto => Jump(s, Target(L.insns, s.pc, ins))
    case GotoLong => Jump(s, Target(L.insns, s.pc, ins))
    case GotoIndirect => Stuck
    case Branch(narrow, test, fromReg) =>
      Jump(s, if env.cond(test, narrow, s.regs[ins.dst], Operand(ins, fromReg, s.regs))
              then Target(L.insns, s.pc, ins) else s.pc + 1)
    case LoadLegacy => External(env, L, s, ins)
    case CallHelper => External(env, L, s, ins)
    case CallKfunc => External(env, L, s, ins)
    case CallFunc => EnterFunc(L, s, ins)
    case Exit => Return(env, L, s.calls, s.regs[0], s.mem, s.log)
  }

  ghost function Step(env: Env, L: Loaded, s: State): Outcome {
    var i := IndexOf(L.insns, s.pc);
    if i < 0 || |s.regs| != 11 then Stuck else Exec(env, L, s, L.insns[i])
  }

  // ---------------------------------------------------------------- runs

  /** `n` steps of a machine whose one step is `f`. */
  ghost function Iterate(f: State -> Outcome, s: State, n: nat): Outcome
    decreases n
  {
    if n == 0 then Running(s)
    else
      match f(s)
      case Running(s') => Iterate(f, s', n - 1)
      case Halted(r, m, log) => if n == 1 then Halted(r, m, log) else Stuck
      case Stuck => Stuck
  }

  lemma {:induction false} IteratePlus(f: State -> Outcome, s: State, n: nat, m: nat)
    requires Iterate(f, s, n).Running?
    ensures Iterate(f, s, n + m) == Iterate(f, Iterate(f, s, n).s, m)
    decreases n
  {
    if n > 0 {
      IteratePlus(f, f(s).s, n - 1, m);
    }
  }

  lemma {:induction false} IterateStep(f: State -> Outcome, s: State, s': State, n: nat)
    requires f(s) == Running(s')
    ensures Iterate(f, s, n + 1) == Iterate(f, s', n)
  {
  }

  ghost function Stepper(env: Env, L: Loaded): State -> Outcome {
    s => Step(env, L, s)
  }

  /** Marks the places where a proof needs all of a predicate that keeps its conditions behind this mark. */
  ghost predicate Unsealed(n: int) {
    true
  }

  /** Marks the states whose step a proof looks into. */
  ghost predicate Focus(s: State) {
    true
  }

  /** `f` is the step of program `L`, seen only at states in focus, which keeps proofs about several
      steps from expanding all of them. */
  ghost predicate Stepping(f: State -> Outcome, env: Env, L: Loaded) {
    forall s: State {:trigger Focus(s)} :: Focus(s) ==> f(s) == Step(env, L, s)
  }

  ghost predicate AtInsn(p: seq<Insn>, pc: int, ins: Insn) {
    exists i | 0 <= i < |p| :: Slot(p, i) == pc && p[i] == ins
  }

  /** A stretch of code, by raw slot. */
  type Code = map<int, Insn>

  ghost predicate Holds(p: seq<Insn>, code: Code) {
    forall pc | pc in code :: AtInsn(p, pc, code[pc])
  }

  /** `f` executes `code` wherever control is inside it. */
  ghost predicate Executes(f: State -> Outcome, env: Env, L: Loaded, code: Code) {
    forall s: State {:trigger Focus(s)} ::
      Focus(s) ==> |s.regs| == 11 && s.pc in code ==> f(s) == Exec(env, L, s, code[s.pc])
  }

  lemma {:induction false} HoldsExecutes(f: State -> Outcome, env: Env, L: Loaded, code: Code)
    requires Stepping(f, env, L) && Holds(L.insns, code)
    ensures Executes(f, env, L, code)
  {
    forall s: State {:trigger Focus(s)} | |s.regs| == 11 && s.pc in code
      ensures f(s) == Exec(env, L, s, code[s.pc])
    {
      assert Focus(s) && AtInsn(L.insns, s.pc, code[s.pc]);
      var i :| 0 <= i < |L.insns| && Slot(L.insns, i) == s.pc && L.insns[i] == code[s.pc];
      IndexOfSlot(L.insns, i);
    }
  }

  lemma {:induction false} StepperSteps(env: Env, L: Loaded)
    ensures Stepping(Stepper(env, L), env, L)
  {
  }

  ghost function Run(env: Env, L: Loaded, s: State, n: nat): Outcome {
    Iterate(Stepper(env, L), s, n)
  }

  lemma {:induction false} ReturnKeepsFrame(env: Env, L: Loaded, calls: seq<Saved>, r0: Value, mem: Memory, log: seq<ExtCall>)
    ensures var o := Return(env, L, calls, r0, mem, log); o.Running? ==> WellFormed(o.s)
  {
  }

  lemma {:induction false} StepKeepsFrame(env: Env, L: Loaded, s: State)
    requires WellFormed(s) && Step(env, L, s).Running?
    ensures WellFormed(Step(env, L, s).s)
  {
    var ins := L.insns[IndexOf(L.insns, s.pc)];
    match ins.op {
      case Exit => ReturnKeepsFrame(env, L, s.calls, s.regs[0], s.mem, s.log);
      case CallHelper => 
      case CallKfunc => 
      case LoadLegacy =>
      case CallFunc =>
      case Alu(_,_,_) =>
      case LoadImm64(_) =>
      case LoadFunc =>
      case Load(_,_) =>
      case StoreImm(_) =>
      case Store(_) =>
      case Atomic(_,_,_) =>
      case Goto => 
      case GotoLong =>
      case GotoIndirect =>
      case Branch(_,_,_) =>
    }
  }
}
