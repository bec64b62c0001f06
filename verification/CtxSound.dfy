/** The context tracker is sound over whole runs: whenever control is in a proved function, every register and
    slot its analysis says holds the program context holds it, and every activation of a proved function starts
    with the context in its context parameter. */
module CtxSound {
  import opened Machine
  import opened CtxDomain
  import opened CtxAnalyze
  import opened CtxProve
  import opened CtxMeaning
  import opened CtxKernel
  import opened CtxTransfer
  import opened CtxRuns
  import opened CtxSteps
  import opened CtxEnter
  import opened CtxPush
  import opened CtxReturn

  // ---------------------------------------------------------------- one step

  /** What a return leaves: the caller continues, or the helper runs its callback once more. */
  ghost predicate ReturnedTo(k: World, c: Config, c': Config, r0: Value, log: seq<ExtCall>)
    requires |c.low| == |c.s.calls| + 1
  {
    var r := Return(k.env, k.L, c.s.calls, r0, c.s.mem, log);
    r.Running? && c'.s == r.s.(mem := c'.s.mem) &&
    c'.low == NextLow(c.low, |c.s.calls|, |r.s.calls|, |r.s.calls| == |c.s.calls|) &&
    if |r.s.calls| == |c.s.calls| then Refreshed(r.s.mem, c'.s.mem, |c.s.calls|) else c'.s.mem == r.s.mem
  }

  lemma {:induction false} NextExits(k: World, c: Config, c': Config, i: nat)
    requires k.L.insns == k.w.p && Next(k.env, k.w, k.L, k.grants, c, c') && i == IndexOf(k.w.p, c.s.pc) && k.w.p[i].op.Exit?
    ensures |c.s.calls| > 0 && ReturnedTo(k, c, c', c.s.regs[0], c.s.log)
    ensures ReturnLaw(k.env, k.w, k.L, k.grants, c.s.calls, c.s.regs[0], c.s.mem, c.low)
  {
  }

  lemma {:induction false} NextLeaves(k: World, c: Config, c': Config, i: nat)
    requires k.L.insns == k.w.p && Next(k.env, k.w, k.L, k.grants, c, c')
    requires i == IndexOf(k.w.p, c.s.pc) && (IsExternal(k.w.p[i]) || k.w.p[i].op.LoadLegacy?)
    requires k.env.ext(CallOut(k.env, k.w.p[i], c.s.regs), c.s.mem).Leave?
    ensures var call := CallOut(k.env, k.w.p[i], c.s.regs); var out := k.env.ext(call, c.s.mem); var h := AfterHelper(k, c, i);
      |c.s.calls| > 0 && !Tracked(out.r0) && ReturnedTo(k, h, c', out.r0, c.s.log + [call]) &&
      ReturnLaw(k.env, k.w, k.L, k.grants, h.s.calls, out.r0, h.s.mem, h.low) && CallOutLaw(k.env, k.w, k.L, k.grants, c, k.w.p[i])
  {
  }

  /** A function returns, or leaves through a tail call, into its caller or the helper that ran it. */
  lemma {:induction false} ReturnStep(k: World, c: Config, c': Config, b: Book, r0: Value, log: seq<ExtCall>) returns (b': Book)
    requires WorldOk(k) && Base(k, c, b) && |c.s.calls| > 0
    requires Allowed(r0, |c.s.calls|, b.seal) && ReturnLaw(k.env, k.w, k.L, k.grants, c.s.calls, r0, c.s.mem, c.low)
    requires ReturnedTo(k, c, c', r0, log)
    ensures Inv(k, c', b')
  {
    var d := |c.s.calls|;
    var saved := c.s.calls[d - 1];
    if saved.resume.Plain? {
      b' := Popped(b);
      CallerContinues(k, c, c', b, r0);
    } else {
      var out := k.env.resume(saved.resume.k, r0, c.s.mem);
      ResumeKeepsBase(k, c, b, out.mem);
      var c2 := c.(s := c.s.(mem := out.mem));
      if out.Done? {
        b' := Popped(b);
        CallerContinues(k, c2, c', b, out.r0);
      } else {
        RefreshTopKeepsBase(k, c2, b, c'.s.mem);
        b' := CallbackAgain(k, WithMemory(c2, c'.s.mem), c', b, out.args);
      }
    }
  }

  lemma {:induction false} ExitStep(k: World, c: Config, c': Config, b: Book, i: nat) returns (b': Book)
    requires WorldOk(k) && Inv(k, c, b) && Next(k.env, k.w, k.L, k.grants, c, c')
    requires i == IndexOf(k.w.p, c.s.pc) && k.w.p[i].op.Exit?
    ensures Inv(k, c', b')
  {
    NextExits(k, c, c', i);
    assert Allowed(c.s.regs[0], |c.s.calls|, b.seal);
    b' := ReturnStep(k, c, c', b, c.s.regs[0], c.s.log);
  }

  lemma {:induction false} LeaveStep(k: World, c: Config, c': Config, b: Book, i: nat) returns (b': Book)
    requires WorldOk(k) && Inv(k, c, b) && Next(k.env, k.w, k.L, k.grants, c, c')
    requires i == IndexOf(k.w.p, c.s.pc) && (IsExternal(k.w.p[i]) || k.w.p[i].op.LoadLegacy?)
    requires k.env.ext(CallOut(k.env, k.w.p[i], c.s.regs), c.s.mem).Leave?
    ensures Inv(k, c', b')
  {
    var call := CallOut(k.env, k.w.p[i], c.s.regs);
    NextLeaves(k, c, c', i);
    HelperKeepsBase(k, c, b, i);
    b' := ReturnStep(k, AfterHelper(k, c, i), c', b, k.env.ext(call, c.s.mem).r0, c.s.log + [call]);
  }

  lemma {:induction false} StepKeepsInv(k: World, c: Config, c': Config, b: Book) returns (b': Book)
    requires WorldOk(k) && Inv(k, c, b) && Next(k.env, k.w, k.L, k.grants, c, c')
    ensures Inv(k, c', b')
  {
    var i := IndexOf(k.w.p, c.s.pc);
    var ins := k.w.p[i];
    if IsPlain(ins) {
      b' := b;
      PlainStep(k, c, c', b, i);
    } else if ins.op.CallFunc? {
      NextEnters(k, c, c', i);
      b' := FunctionStarts(k, c, c', b, i);
    } else if ins.op.Exit? {
      b' := ExitStep(k, c, c', b, i);
    } else {
      b' := ExternalStep(k, c, c', b, i);
    }
  }

  lemma {:induction false} ExternalStep(k: World, c: Config, c': Config, b: Book, i: nat) returns (b': Book)
    requires WorldOk(k) && Inv(k, c, b) && Next(k.env, k.w, k.L, k.grants, c, c')
    requires i == IndexOf(k.w.p, c.s.pc) && (IsExternal(k.w.p[i]) || k.w.p[i].op.LoadLegacy?)
    ensures Inv(k, c', b')
  {
    var out := k.env.ext(CallOut(k.env, k.w.p[i], c.s.regs), c.s.mem);
    match out {
      case Done(_, _) =>
        b' := b;
        NextReturns(k, c, c', i);
        ExternalReturns(k, c, c', b, i);
      case Leave(_, _) => b' := LeaveStep(k, c, c', b, i);
      case Invoke(_, _, _, _) =>
        NextStartsCallback(k, c, c', i);
        b' := CallbackStarts(k, c, c', b, i);
    }
  }

  // ---------------------------------------------------------------- runs

  /** The kernel starts the program with the context in R1. */
  ghost predicate Started(c: Config) {
    c.s.pc == 0 && c.s.calls == [] && c.low == [0] && c.s.regs == EntryRegs(CTX, Undef, Undef, Undef, Undef, 0) &&
    OutsideOk(c.s.mem) && FreshFrame(c.s.mem, 0)
  }

  ghost predicate IsRun(k: World, run: seq<Config>) {
    run != [] && Started(run[0]) && forall n | 0 <= n < |run| - 1 :: MovesAt(k, run, n)
  }

  ghost predicate MovesAt(k: World, run: seq<Config>, n: nat)
    requires n + 1 < |run|
  {
    Next(k.env, k.w, k.L, k.grants, run[n], run[n + 1])
  }

  lemma {:induction false} StartHolds(k: World, c: Config) returns (b: Book)
    requires WorldOk(k) && Started(c)
    ensures Inv(k, c, b)
  {
    WorldFacts(k);
    b := Book([0], []);
    assert FnOk(k.w, 0);
    IndexOfSlot(k.w.p, 0);
    FreshIsOk(k, b, c.s.mem, 0);
    EntryTop(k, c, b);
  }

  lemma {:induction false} EntryTop(k: World, c: Config, b: Book)
    requires WorldOk(k) && Started(c) && BookOk(k, c, b) && b.fn == [0] && IndexOf(k.w.p, 0) == 0 && |k.w.fns| > 0 && k.w.fns[0].lo == 0
    ensures TopOk(k, c, b)
  {
    if k.out[0].Proven? {
      StartCovered(k, 0);
      StartDescribed(0, c.s);
      DescribesUp(Initial(0), k.out[0].states[0], c.s.regs, c.s.mem, 0);
    }
  }

  lemma {:induction false} RunHolds(k: World, run: seq<Config>, n: nat) returns (b: Book)
    requires WorldOk(k) && IsRun(k, run) && n < |run|
    ensures Inv(k, run[n], b)
    decreases n
  {
    if n == 0 {
      b := StartHolds(k, run[0]);
    } else {
      var before := RunHolds(k, run, n - 1);
      b := RunMoves(k, run, n - 1, before);
    }
  }

  lemma {:induction false} RunMoves(k: World, run: seq<Config>, n: nat, b: Book) returns (b': Book)
    requires WorldOk(k) && n + 1 < |run| && IsRun(k, run) && Inv(k, run[n], b)
    ensures Inv(k, run[n + 1], b')
  {
    assert MovesAt(k, run, n);
    b' := StepKeepsInv(k, run[n], run[n + 1], b);
  }

  lemma {:induction false} OneFunction(w: Flow, f: nat, g: nat, i: nat)
    requires FlowOk(w) && f < |w.fns| && g < |w.fns| && Within(w, f, i) && Within(w, g, i)
    ensures f == g
  {
  }

  /** In every run, whenever control is at an instruction of a proved function, the analysis has a state for it
      and each register or slot it calls the context holds the context. */
  lemma {:induction false} HeldContextIsReal(k: World, run: seq<Config>, n: nat, f: nat)
    requires WorldOk(k) && IsRun(k, run) && n < |run|
    requires f < |k.out| && k.out[f].Proven? && Within(k.w, f, IndexOf(k.w.p, run[n].s.pc))
    ensures var s, i, states := run[n].s, IndexOf(k.w.p, run[n].s.pc), k.out[f].states;
      i in states && Shaped(states[i]) && |s.regs| == 11 &&
      (forall r | 0 <= r < REGS && states[i].regs[r].TheCtx? :: s.regs[r] == CTX) &&
      (forall j | 0 <= j < SLOTS && states[i].slots[j].TheCtx? :: LoadBytes(k.env, s.mem, Frame(|s.calls|), SlotOff(j), 8, false) == CTX)
  {
    WorldFacts(k);
    var c := run[n];
    var b := RunHolds(k, run, n);
    var s, i := c.s, IndexOf(k.w.p, c.s.pc);
    OneFunction(k.w, f, b.fn[|s.calls|], i);
    var a := k.out[f].states[i];
    forall r | 0 <= r < REGS && a.regs[r].TheCtx?
      ensures s.regs[r] == CTX
    {
      assert Means(a.regs[r], s.regs[r], |s.calls|);
    }
    forall j | 0 <= j < SLOTS && a.slots[j].TheCtx?
      ensures LoadBytes(k.env, s.mem, Frame(|s.calls|), SlotOff(j), 8, false) == CTX
    {
      assert SlotHolds(a.slots[j], SlotBytes(s.mem, |s.calls|, j), |s.calls|);
    }
  }

  /** In every run, each call that enters a proved function does so with the context in its parameter. */
  lemma {:induction false} ProvedStartsWithContext(k: World, run: seq<Config>, n: nat, f: nat)
    requires WorldOk(k) && IsRun(k, run) && n + 1 < |run|
    requires var i := IndexOf(k.w.p, run[n].s.pc); i >= 0 && k.w.p[i].op.CallFunc? && 0 <= f < |k.w.fns| && k.w.fns[f].lo == Callee(k.w, i)
    requires f < |k.out| && k.out[f].Proven?
    ensures run[n + 1].s.pc == Slot(k.w.p, k.w.fns[f].lo) && |run[n + 1].s.regs| == 11
    ensures 0 <= k.w.fns[f].param < 5 && run[n + 1].s.regs[1 + k.w.fns[f].param] == CTX
  {
    WorldFacts(k);
    var b := RunHolds(k, run, n);
    var i := IndexOf(k.w.p, run[n].s.pc);
    assert MovesAt(k, run, n);
    EntersWithContext(k, run[n], run[n + 1], b, i, f);
  }

  lemma {:induction false} EntersWithContext(k: World, c: Config, c': Config, b: Book, i: nat, f: nat)
    requires WorldOk(k) && Top(k, c, b) && Next(k.env, k.w, k.L, k.grants, c, c')
    requires i == IndexOf(k.w.p, c.s.pc) && k.w.p[i].op.CallFunc?
    requires f < |k.w.fns| == |k.out| && k.w.fns[f].lo == Callee(k.w, i) && k.out[f].Proven?
    ensures c'.s.pc == Slot(k.w.p, k.w.fns[f].lo) && |c'.s.regs| == 11
    ensures 0 <= k.w.fns[f].param < 5 && c'.s.regs[1 + k.w.fns[f].param] == CTX
  {
    NextEnters(k, c, c', i);
    CallTarget(k, i, f);
    IndexOfSlot(k.w.p, i);
    CallPassesContext(k, c, b, i, f);
  }

  lemma {:induction false} CallTarget(k: World, i: nat, f: nat)
    requires WorldOk(k) && i < |k.w.p| && k.w.p[i].op.CallFunc? && f < |k.w.fns| && k.w.fns[f].lo == Callee(k.w, i)
    ensures f > 0 && Target(k.w.p, Slot(k.w.p, i), k.w.p[i]) == Slot(k.w.p, k.w.fns[f].lo)
  {
    WorldFacts(k);
    var g := CalleeFn(k, i);
    SameStart(k.w, f, g);
  }

  // ---------------------------------------------------------------- where the context is held

  datatype Source = Register(r: int) | StackSlot(off: int) | Nowhere

  /** `h` is the lowest of R6-R9, or else the shallowest slot, that holds the context. */
  ghost predicate Claims(a: Known, h: Source)
    requires Shaped(a)
  {
    match h
    case Register(r) => 6 <= r <= 9 && a.regs[r].TheCtx? && forall q | 6 <= q < r :: !a.regs[q].TheCtx?
    case StackSlot(off) =>
      IsSlot(off) && a.slots[SlotAt(off)].TheCtx? && (forall q | 6 <= q <= 9 :: !a.regs[q].TheCtx?) &&
      forall j | 0 <= j < SlotAt(off) :: !a.slots[j].TheCtx?
    case Nowhere => (forall q | 6 <= q <= 9 :: !a.regs[q].TheCtx?) && forall j | 0 <= j < SLOTS :: !a.slots[j].TheCtx?
  }

  method HeldAt(a: Known) returns (h: Source)
    requires Shaped(a)
    ensures Claims(a, h)
  {
    for r := 6 to 10
      invariant forall q | 6 <= q < r :: !a.regs[q].TheCtx?
    {
      if a.regs[r].TheCtx? {
        return Register(r);
      }
    }
    for j := 0 to SLOTS
      invariant forall q | 0 <= q < j :: !a.slots[q].TheCtx?
    {
      if a.slots[j].TheCtx? {
        return StackSlot(SlotOff(j));
      }
    }
    return Nowhere;
  }
}
