/** What the context tracker takes from the program's text, exactly: what a reference names, which functions write
    nothing but their own stack, and which may be proved at all. */
module CtxRefs {
  import opened Machine
  import opened CtxDomain
  import opened CtxAnalyze
  import opened CtxProve

  ghost predicate Starts(w: Flow, f: int, t: int) {
    0 <= f < |w.fns| && w.fns[f].lo == t
  }

  /** The slot a numeric reference means: relative to the next one, by the offset of a call if it has one, by the
      constant of a call or function load otherwise. */
  function MeantSlot(w: Flow, i: nat): int
    requires i < |w.p|
  {
    var ins, next := w.p[i], Slot(w.p, i) + 1;
    if ins.op.CallFunc? && ins.off != 0 then next + ins.off
    else if ins.op.CallFunc? || ins.op.LoadFunc? then next + ins.imm
    else 0
  }

  /** A symbol names an instruction that carries it; a number names the function that starts at its slot. */
  lemma {:induction false} CalleeExactly(w: Flow, i: nat, t: nat)
    requires i < |w.p| && t < |w.p| && (w.p[i].op.CallFunc? || w.p[i].op.LoadFunc?)
    ensures w.p[i].ref == "" ==> (Callee(w, i) == t <==> Slot(w.p, t) == MeantSlot(w, i) && exists f :: Starts(w, f, t))
    ensures w.p[i].ref != "" ==> (Callee(w, i) == -1 <==> forall k | 0 <= k < |w.p| :: w.p[k].sym != w.p[i].ref)
    ensures w.p[i].ref != "" && Callee(w, i) == t ==> w.p[t].sym == w.p[i].ref
  {
    IndexOfSlot(w.p, t);
    if w.p[i].ref == "" && IsStart(w, t) {
      var f :| 0 <= f < |w.fns| && w.fns[f].lo == t;
      assert Starts(w, f, t);
    }
  }

  ghost predicate StoresAway(ins: Insn) {
    (ins.op.Store? || ins.op.StoreImm? || ins.op.Atomic?) && ins.dst != 10
  }

  ghost predicate CallsOut(ins: Insn) {
    ins.op.CallHelper? || ins.op.CallKfunc? || ins.op.CallFunc?
  }

  ghost predicate MayWrite(w: Flow, f: nat, i: int)
    requires f < |w.fns|
  {
    w.fns[f].lo <= i < w.fns[f].hi && 0 <= i < |w.p| && (StoresAway(w.p[i]) || CallsOut(w.p[i]))
  }

  /** A callee keeps its callers' memory exactly when it stores to its own stack only and calls nothing. */
  lemma {:induction false} WriteFreeExactly(w: Flow, f: nat)
    requires FlowOk(w) && f < |w.fns|
    ensures WriteFreeAt(w, w.fns[f].lo) <==> forall i :: !MayWrite(w, f, i)
  {
    assert FnOk(w, f);
    if forall i :: !MayWrite(w, f, i) {
      forall i | w.fns[f].lo <= i < w.fns[f].hi
        ensures WritesOwnStackOnly(w.p[i])
      {
        assert !MayWrite(w, f, i);
      }
    }
    if WriteFreeAt(w, w.fns[f].lo) {
      var g :| 0 <= g < |w.fns| && w.fns[g].lo == w.fns[f].lo && WriteFree(w, g);
      SameStart(w, f, g);
    }
  }

  lemma {:induction false} SameStart(w: Flow, f: nat, g: nat)
    requires FlowOk(w) && f < |w.fns| && g < |w.fns| && w.fns[f].lo == w.fns[g].lo
    ensures f == g
  {
    assert FnOk(w, f) && FnOk(w, g);
  }

  ghost predicate LoadsIn(w: Flow, f: int, i: int) {
    0 <= f < |w.fns| && w.fns[f].lo <= i < w.fns[f].hi && 0 <= i < |w.p| && w.p[i].op.LoadFunc?
  }

  /** Function pointers may come from elsewhere exactly when a function other than the entry loads one. */
  lemma {:induction false} ElsewhereExactly(w: Flow)
    requires FlowOk(w)
    ensures FuncElsewhere(w) <==> exists f, i :: f > 0 && LoadsIn(w, f, i)
  {
    assert FnOk(w, 0);
    if FuncElsewhere(w) {
      var i :| w.fns[0].hi <= i < |w.p| && w.p[i].op.LoadFunc?;
      var f := Holder(w, i, |w.fns| - 1);
      assert f > 0 && LoadsIn(w, f, i);
    }
    if f, i :| f > 0 && LoadsIn(w, f, i) {
      assert FnOk(w, f) && w.fns[0].hi <= w.fns[f].lo;
    }
  }

  /** The function an instruction belongs to. */
  lemma {:induction false} Holder(w: Flow, i: nat, f: nat) returns (g: nat)
    requires FlowOk(w) && f < |w.fns| && i < w.fns[f].hi
    ensures g <= f && w.fns[g].lo <= i < w.fns[g].hi
    decreases f
  {
    if w.fns[f].lo <= i {
      return f;
    }
    assert FnOk(w, f - 1);
    g := Holder(w, i, f - 1);
  }

  ghost predicate TakesAddress(w: Flow, i: int, t: int) {
    0 <= i < |w.p| && w.p[i].op.LoadFunc? && Callee(w, i) == t
  }

  /** Candidates are the functions with a context parameter in R1-R5, R1 for the entry, whose address nothing takes;
      the entry and global functions need no caller. */
  lemma {:induction false} EligibleExactly(w: Flow, f: nat)
    requires f < |w.fns|
    ensures Eligible(w, f) <==>
      w.fns[f].param in {0, 1, 2, 3, 4} && (f == 0 ==> w.fns[f].param == 0) && forall i :: !TakesAddress(w, i, w.fns[f].lo)
    ensures Root(w, f) <==> f == 0 || w.fns[f].isGlobal
  {
    if IsCallback(w, w.fns[f].lo) {
      var i :| 0 <= i < |w.p| && w.p[i].op.LoadFunc? && Callee(w, i) == w.fns[f].lo;
      assert TakesAddress(w, i, w.fns[f].lo);
    }
    if i :| TakesAddress(w, i, w.fns[f].lo) {
      assert IsCallback(w, w.fns[f].lo);
    }
  }

  // ---------------------------------------------------------------- where control may go

  /** `j` is where control may continue inside function `f` after instruction `i`. */
  ghost predicate Continues(w: Flow, f: nat, i: nat, j: int)
    requires f < |w.fns| && i < |w.p|
  {
    0 <= j < |w.p| && w.fns[f].lo <= j < w.fns[f].hi &&
    ((Jumps(w.p[i]) && Slot(w.p, j) == Target(w.p, Slot(w.p, i), w.p[i])) || (!Leaves(w.p[i]) && j == i + 1))
  }

  ghost predicate Jumps(ins: Insn) {
    ins.op.Goto? || ins.op.GotoLong? || ins.op.GotoIndirect? || ins.op.Branch?
  }

  ghost predicate Leaves(ins: Insn) {
    ins.op.Exit? || ins.op.Goto? || ins.op.GotoLong? || ins.op.GotoIndirect?
  }

  /** The walk follows an instruction exactly when every way on stays in the function, the jump is not an indirect one
      and the callee is known; it then goes every way there is. */
  lemma {:induction false} SuccessorsExactly(w: Flow, f: nat, i: nat)
    requires f < |w.fns| && w.fns[f].hi <= |w.p| && i < |w.p|
    ensures Successors(w, f, i).Ok? <==>
      !w.p[i].op.GotoIndirect? && (w.p[i].op.CallFunc? ==> Callee(w, i) >= 0) &&
      (!Leaves(w.p[i]) ==> w.fns[f].lo <= i + 1 < w.fns[f].hi) &&
      (Jumps(w.p[i]) ==> Lands(w, f, Target(w.p, Slot(w.p, i), w.p[i])))
    ensures Successors(w, f, i).Ok? ==> forall j :: j in Successors(w, f, i).value <==> Continues(w, f, i, j)
  {
    forall j | 0 <= j < |w.p|
      ensures IndexOf(w.p, Slot(w.p, j)) == j
    {
      IndexOfSlot(w.p, j);
    }
  }

  ghost predicate Lands(w: Flow, f: nat, pc: int)
    requires f < |w.fns| && w.fns[f].hi <= |w.p|
  {
    exists j | w.fns[f].lo <= j < w.fns[f].hi :: Slot(w.p, j) == pc
  }

  /** A function starts with the context in its parameter and nothing known to point into its frame. */
  lemma {:induction false} InitialExactly(param: int, r: Reg)
    requires 0 <= param < 5 && r < 10
    ensures Initial(param).regs[r] == (if r == param + 1 then TheCtx else Other)
    ensures forall j | 0 <= j < |Initial(param).slots| :: Initial(param).slots[j] == Other
    ensures |Initial(param).slots| == 64 && Initial(param).floor == 0
  {
  }
}
