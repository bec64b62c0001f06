/** The program as the context tracker sees it: functions, references, successors, and what a solution of one
    function's equations is. */
module CtxAnalyze {
  import opened Machine
  import opened CtxDomain
  import Liveness

  /** One function: instructions lo..hi, its linkage, and its context parameter (-1 for none). */
  datatype Fn = Fn(lo: nat, hi: nat, isGlobal: bool, param: int)

  datatype Flow = Flow(p: seq<Insn>, fns: seq<Fn>)

  /** The functions tile the program, the entry first. */
  ghost predicate FlowOk(w: Flow) {
    w.fns != [] && w.fns[0].lo == 0 && w.fns[|w.fns| - 1].hi == |w.p| &&
    (forall f | 0 <= f < |w.fns| :: FnOk(w, f)) &&
    (forall f, g | 0 <= f < g < |w.fns| :: w.fns[f].hi <= w.fns[g].lo)
  }

  ghost predicate FnOk(w: Flow, f: nat)
    requires f < |w.fns|
  {
    w.fns[f].lo < w.fns[f].hi <= |w.p| && (f + 1 < |w.fns| ==> w.fns[f].hi == w.fns[f + 1].lo)
  }

  predicate Within(w: Flow, f: nat, i: int)
    requires f < |w.fns|
  {
    w.fns[f].lo <= i < w.fns[f].hi
  }

  // ---------------------------------------------------------------- the program's references

  predicate IsStart(w: Flow, t: int) {
    exists f | 0 <= f < |w.fns| :: w.fns[f].lo == t
  }

  /** The instruction a call or function-pointer load refers to, or -1.  A numeric reference must name a function
      start; translated code may carry it in the offset. */
  function Callee(w: Flow, i: nat): (t: int)
    requires i < |w.p|
    ensures -1 <= t < |w.p|
  {
    var ins := w.p[i];
    if ins.ref != "" then FindSym(w.p, ins.ref)
    else
      var pc := Slot(w.p, i);
      var t := IndexOf(w.p, if ins.op.CallFunc? && ins.off != 0 then pc + 1 + ins.off else Target(w.p, pc, ins));
      if IsStart(w, t) then t else -1
  }

  predicate IsCall(ins: Insn) {
    ins.op.CallHelper? || ins.op.CallKfunc? || ins.op.CallFunc?
  }

  /** It stores only to its own stack and calls nothing. */
  predicate WriteFree(w: Flow, f: nat)
    requires f < |w.fns|
  {
    w.fns[f].hi <= |w.p| && forall i | w.fns[f].lo <= i < w.fns[f].hi :: WritesOwnStackOnly(w.p[i])
  }

  predicate WritesOwnStackOnly(ins: Insn) {
    !IsCall(ins) && ((ins.op.Store? || ins.op.StoreImm? || ins.op.Atomic?) ==> ins.dst == FP)
  }

  predicate WriteFreeAt(w: Flow, t: int) {
    exists f | 0 <= f < |w.fns| :: w.fns[f].lo == t && WriteFree(w, f)
  }

  /** Some function other than the entry forms a function pointer. */
  predicate FuncElsewhere(w: Flow) {
    |w.fns| > 0 && exists i | w.fns[0].hi <= i < |w.p| :: w.p[i].op.LoadFunc?
  }

  predicate IsCallback(w: Flow, t: int) {
    exists i | 0 <= i < |w.p| :: w.p[i].op.LoadFunc? && Callee(w, i) == t
  }

  // ---------------------------------------------------------------- one function

  const GET_SMP_PROCESSOR_ID := 8

  /** An inlined helper that leaves R1-R5 alone on some architectures. */
  function KeepArgs(s: Known, t: Known): (u: Known)
    requires Shaped(s) && Shaped(t)
    ensures Shaped(u)
  {
    t.(regs := [t.regs[0]] + JoinAll(s.regs[1..6], [Other, Other, Other, Other, Other]) + t.regs[6..])
  }

  function After(w: Flow, s: Known, i: nat): (t: Known)
    requires Shaped(s) && i < |w.p|
    ensures Shaped(t)
  {
    var ins := w.p[i];
    if IsCall(ins) then
      var direct := ins.op.CallFunc?;
      var t := AfterCall(s, !direct, direct && WriteFreeAt(w, Callee(w, i)), FuncElsewhere(w));
      if ins.op.CallHelper? && ins.imm == GET_SMP_PROCESSOR_ID
      then KeepArgs(s, t) else t
    else AfterPlain(s, ins)
  }

  /** Successors of an instruction, refused when the walk cannot follow it inside the function. */
  function Successors(w: Flow, f: nat, i: nat): Result<seq<nat>>
    requires f < |w.fns| && i < |w.p|
  {
    var ins := w.p[i];
    var next := if Within(w, f, i + 1) then Ok([i + 1]) else Refused(LeavesProgram);
    if ins.op.CallFunc? && Callee(w, i) < 0 then Refused(NotASubprogram)
    else if ins.op.GotoIndirect? then Refused(Unsupported)
    else if ins.op.Exit? then Ok([])
    else if Liveness.IsJump(ins) then
      var t := IndexOf(w.p, Target(w.p, Slot(w.p, i), ins));
      if !(t >= 0 && Within(w, f, t)) then Refused(LeavesProgram)
      else if !ins.op.Branch? then Ok([t])
      else if next.Refused? then next else Ok([t, i + 1])
    else next
  }

  function Initial(param: int): (s: Known)
    requires 0 <= param < 5
    ensures Shaped(s)
  {
    Known(seq(REGS, r => if r == 1 + param then TheCtx else Other), seq(SLOTS, _ => Other), 0)
  }

  type States = map<nat, Known>

  ghost predicate StatesOk(w: Flow, f: nat, states: States)
    requires f < |w.fns|
  {
    w.fns[f].hi <= |w.p| && forall i | i in states :: Within(w, f, i) && Shaped(states[i])
  }

  /** What flows out of `i` is accounted for at each successor. */
  ghost predicate Closed(w: Flow, f: nat, states: States, i: nat)
    requires f < |w.fns| && StatesOk(w, f, states) && i in states
  {
    var succ := Successors(w, f, i);
    succ.Ok? && forall m | 0 <= m < |succ.value| :: Reached(states, succ.value[m], After(w, states[i], i))
  }

  ghost predicate Reached(states: States, j: nat, s: Known) {
    j in states && Covers(states[j], s)
  }

  /** A post-fixpoint: it covers the initial state and is closed under every step. */
  ghost predicate Solved(w: Flow, f: nat, states: States) {
    f < |w.fns| && 0 <= w.fns[f].param < 5 && StatesOk(w, f, states) &&
    Reached(states, w.fns[f].lo, Initial(w.fns[f].param)) &&
    forall i | i in states :: Closed(w, f, states, i)
  }
}
