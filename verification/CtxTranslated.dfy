/** Translated code: a dump of a loaded program may carry the target of a direct call in the offset.  The tracker
    reads either form alike, so what it proves of the dump holds of runs of the program. */
module CtxTranslated {
  import opened Machine
  import opened CtxDomain
  import opened CtxAnalyze
  import opened CtxWorklist
  import opened CtxProve
  import opened CtxMeaning
  import opened CtxKernel
  import opened CtxRuns
  import opened CtxSound
  import Liveness

  /** The call as the program has it: the target in the constant. */
  function Restored(ins: Insn): Insn {
    if !ins.op.CallFunc? || ins.off == 0 then ins
    else if ins.ref != "" then ins.(off := 0) else ins.(imm := ins.off, off := 0)
  }

  /** `p` is the program that `w` is a dump of. */
  ghost predicate IsDump(w: Flow, p: seq<Insn>) {
    |p| == |w.p| && forall i | 0 <= i < |p| :: p[i] == Restored(w.p[i])
  }

  function Loadable(w: Flow): (v: Flow)
    ensures v.fns == w.fns && IsDump(w, v.p)
  {
    Flow(seq(|w.p|, i requires 0 <= i < |w.p| => Restored(w.p[i])), w.fns)
  }

  // ---------------------------------------------------------------- the same program to the tracker

  lemma {:induction false} SameSlot(w: Flow, p: seq<Insn>, i: nat)
    requires IsDump(w, p) && i <= |p|
    ensures Slot(p, i) == Slot(w.p, i)
    decreases i
  {
    if i > 0 {
      SameSlot(w, p, i - 1);
    }
  }

  lemma {:induction false} SameIndex(w: Flow, p: seq<Insn>, pc: int, n: nat)
    requires IsDump(w, p) && n <= |p|
    ensures SearchSlot(p, pc, n) == SearchSlot(w.p, pc, n)
    decreases n
  {
    if n > 0 {
      SameSlot(w, p, n - 1);
      SameIndex(w, p, pc, n - 1);
    }
  }

  lemma {:induction false} SameSym(w: Flow, p: seq<Insn>, name: string, n: nat)
    requires IsDump(w, p) && n <= |p|
    ensures SearchSym(p, name, n) == SearchSym(w.p, name, n)
    decreases n
  {
    if n > 0 {
      SameSym(w, p, name, n - 1);
    }
  }

  /** A jump or reference other than a direct call leads to the same place. */
  lemma {:induction false} SameTarget(w: Flow, p: seq<Insn>, pc: int, ins: Insn)
    requires IsDump(w, p)
    ensures Target(p, pc, ins) == Target(w.p, pc, ins)
  {
    if ins.ref != "" {
      SameSym(w, p, ins.ref, |p|);
      var i := FindSym(p, ins.ref);
      if i >= 0 {
        SameSlot(w, p, i);
      }
    }
  }

  lemma {:induction false} SameCallee(w: Flow, v: Flow, i: nat)
    requires IsDump(w, v.p) && v.fns == w.fns && i < |w.p|
    ensures Callee(v, i) == Callee(w, i)
  {
    var ins := w.p[i];
    if ins.ref != "" {
      SameSym(w, v.p, ins.ref, |v.p|);
    } else {
      var pc := Slot(w.p, i);
      SameSlot(w, v.p, i);
      SameIndex(w, v.p, Target(v.p, pc, v.p[i]), |v.p|);
      SameTarget(w, v.p, pc, ins);
    }
  }

  lemma {:induction false} SameAfter(w: Flow, v: Flow, a: Known, i: nat)
    requires IsDump(w, v.p) && v.fns == w.fns && i < |w.p| && Shaped(a)
    ensures After(v, a, i) == After(w, a, i)
  {
    if w.p[i].op.CallFunc? {
      SameCallee(w, v, i);
    }
    forall f | 0 <= f < |w.fns|
      ensures WriteFree(v, f) == WriteFree(w, f)
    {
      SameWriteFree(w, v, f);
    }
    SameFuncElsewhere(w, v);
  }

  lemma {:induction false} SameWriteFree(w: Flow, v: Flow, f: nat)
    requires IsDump(w, v.p) && v.fns == w.fns && f < |w.fns|
    ensures WriteFree(v, f) == WriteFree(w, f)
  {
    if w.fns[f].hi <= |w.p| {
      assert forall i | w.fns[f].lo <= i < w.fns[f].hi :: WritesOwnStackOnly(v.p[i]) == WritesOwnStackOnly(w.p[i]);
    }
  }

  lemma {:induction false} SameFuncElsewhere(w: Flow, v: Flow)
    requires IsDump(w, v.p) && v.fns == w.fns
    ensures FuncElsewhere(v) == FuncElsewhere(w)
  {
    assert forall i | 0 <= i < |w.p| :: v.p[i].op == w.p[i].op;
  }

  lemma {:induction false} SameSuccessors(w: Flow, v: Flow, f: nat, i: nat)
    requires IsDump(w, v.p) && v.fns == w.fns && f < |w.fns| && i < |w.p|
    ensures Successors(v, f, i) == Successors(w, f, i)
  {
    var ins := w.p[i];
    SameCallee(w, v, i);
    if Liveness.IsJump(ins) {
      SameSlot(w, v.p, i);
      SameTarget(w, v.p, Slot(w.p, i), ins);
      SameIndex(w, v.p, Target(w.p, Slot(w.p, i), ins), |v.p|);
    }
  }

  lemma {:induction false} SameSolved(w: Flow, v: Flow, f: nat, x: States)
    requires IsDump(w, v.p) && v.fns == w.fns
    ensures Solved(v, f, x) == Solved(w, f, x)
  {
    if f < |w.fns| && StatesOk(w, f, x) {
      forall i | i in x
        ensures Closed(v, f, x, i) == Closed(w, f, x, i)
      {
        SameSuccessors(w, v, f, i);
        SameAfter(w, v, x[i], i);
      }
    }
  }

  lemma {:induction false} SameLeast(w: Flow, v: Flow, f: nat, x: States)
    requires IsDump(w, v.p) && v.fns == w.fns
    ensures Least(v, f, x) == Least(w, f, x) && Unsolvable(v, f) == Unsolvable(w, f)
  {
    forall y: States
      ensures Solved(v, f, y) == Solved(w, f, y)
    {
      SameSolved(w, v, f, y);
    }
    forall i | i in x
      ensures Justified(v, f, i, x[i]) == Justified(w, f, i, x[i])
    {
    }
  }

  lemma {:induction false} SameCallers(w: Flow, v: Flow, out: seq<Verdict>, f: nat)
    requires IsDump(w, v.p) && v.fns == w.fns && f < |w.fns| == |out|
    ensures NoCaller(v, f) == NoCaller(w, f) && AllPass(v, out, f) == AllPass(w, out, f) && SomeFails(v, out, f) == SomeFails(w, out, f)
  {
    forall g: nat, i: nat
      ensures IsCaller(v, f, g, i) == IsCaller(w, f, g, i)
      ensures Fails(v, out, f, g, i) == Fails(w, out, f, g, i)
    {
      if i < |w.p| {
        SameCallee(w, v, i);
      }
    }
  }

  lemma {:induction false} SameEligible(w: Flow, v: Flow, f: nat)
    requires IsDump(w, v.p) && v.fns == w.fns && f < |w.fns|
    ensures Eligible(v, f) == Eligible(w, f)
  {
    var t := w.fns[f].lo;
    forall i | 0 <= i < |w.p|
      ensures v.p[i].op == w.p[i].op && Callee(v, i) == Callee(w, i)
    {
      SameCallee(w, v, i);
    }
  }

  /** Verdicts about the dump are verdicts about the program. */
  lemma {:induction false} SameVerdicts(w: Flow, v: Flow, out: seq<Verdict>)
    requires IsDump(w, v.p) && v.fns == w.fns && AllGrounded(w, out)
    ensures AllGrounded(v, out)
  {
    forall f | 0 <= f < |out|
      ensures Grounded(v, out, f)
    {
      assert Grounded(w, out, f);
      SameEligible(w, v, f);
      SameCallers(w, v, out, f);
      if out[f].Proven? {
        SameSolved(w, v, f, out[f].states);
        SameLeast(w, v, f, out[f].states);
      } else {
        SameLeast(w, v, f, map[]);
      }
    }
  }

  // ---------------------------------------------------------------- whole runs

  /** The program a world's dump is of, with the same verdicts. */
  function ProgramOf(k: World): World {
    k.(w := Loadable(k.w))
  }

  /** The verdicts are about the dump; what is verified and runs is the program. */
  ghost predicate DumpOk(k: World) {
    k.L.insns == Loadable(k.w).p && Verified(Loadable(k.w)) && AllGrounded(k.w, k.out) && Recognised(k)
  }

  lemma {:induction false} ProgramIsOk(k: World)
    requires DumpOk(k)
    ensures WorldOk(ProgramOf(k))
  {
    var v := Loadable(k.w);
    SameVerdicts(k.w, v, k.out);
    forall f: nat, i: nat | f < |k.out| && k.out[f].Proven? && i in k.out[f].states
      ensures RecognisedAt(ProgramOf(k), k.out[f].states[i], i)
    {
      var a := k.out[f].states[i];
      assert RecognisedAt(k, a, i);
      if i < |v.p| && Shaped(a) {
        SameAfter(k.w, v, a, i);
      }
    }
  }

  /** In every run of a program whose callbacks are recognised, whenever control is at an instruction of a function
      proved on its dump, each register and slot the analysis calls the context holds the context. */
  lemma {:induction false} DumpedContextIsReal(k: World, run: seq<Config>, n: nat, f: nat)
    requires DumpOk(k) && IsRun(ProgramOf(k), run) && n < |run|
    requires f < |k.out| && k.out[f].Proven? && Within(k.w, f, IndexOf(k.w.p, run[n].s.pc))
    ensures var s, i, states := run[n].s, IndexOf(k.w.p, run[n].s.pc), k.out[f].states;
      i in states && Shaped(states[i]) && |s.regs| == 11 &&
      (forall r | 0 <= r < REGS && states[i].regs[r].TheCtx? :: s.regs[r] == CTX) &&
      (forall j | 0 <= j < SLOTS && states[i].slots[j].TheCtx? :: LoadBytes(k.env, s.mem, Frame(|s.calls|), SlotOff(j), 8, false) == CTX)
  {
    ProgramIsOk(k);
    SameIndex(k.w, Loadable(k.w).p, run[n].s.pc, |k.w.p|);
    HeldContextIsReal(ProgramOf(k), run, n, f);
  }

  /** And each call that enters such a function does so with the context in its parameter. */
  lemma {:induction false} DumpedStartsWithContext(k: World, run: seq<Config>, n: nat, f: nat)
    requires DumpOk(k) && IsRun(ProgramOf(k), run) && n + 1 < |run|
    requires var i := IndexOf(k.w.p, run[n].s.pc); i >= 0 && k.w.p[i].op.CallFunc? && 0 <= f < |k.w.fns| && k.w.fns[f].lo == Callee(k.w, i)
    requires f < |k.out| && k.out[f].Proven?
    ensures |run[n + 1].s.regs| == 11 && IndexOf(k.w.p, run[n + 1].s.pc) == k.w.fns[f].lo
    ensures 0 <= k.w.fns[f].param < 5 && run[n + 1].s.regs[1 + k.w.fns[f].param] == CTX
  {
    var v, i := Loadable(k.w), IndexOf(k.w.p, run[n].s.pc);
    ProgramIsOk(k);
    SameIndex(k.w, v.p, run[n].s.pc, |k.w.p|);
    SameCallee(k.w, v, i);
    ProvedStartsWithContext(ProgramOf(k), run, n, f);
    IndexOfSlot(v.p, v.fns[f].lo);
    SameIndex(k.w, v.p, run[n + 1].s.pc, |k.w.p|);
  }
}
