/** Entering a callback or another function keeps the invariant, and a proved function starts with the context. */
module CtxPush {
  import opened Machine
  import opened CtxDomain
  import opened CtxAnalyze
  import opened CtxProve
  import opened CtxMeaning
  import opened CtxKernel
  import opened CtxTransfer
  import opened CtxCalls
  import opened CtxRuns
  import opened CtxSteps
  import opened CtxEnter

  /** The running function's part of the invariant. */
  ghost predicate Top(k: World, c: Config, b: Book) {
    BookOk(k, c, b) && Located(k, c, b) && TopOk(k, c, b)
  }

  lemma {:induction false} SuspendedRegs(w: Flow, a: Known, s: State, i: nat, saved: Saved)
    requires Shaped(a) && RegsHold(a, s.regs, |s.calls|) && i < |w.p| && IsCall(w.p[i])
    requires saved == SaveFrame(s, s.pc + 1, saved.resume)
    ensures forall v: Value | Means(After(w, a, i).regs[0], v, |s.calls|) :: RegsHold(After(w, a, i), ReturnRegs(v, saved, |s.calls|), |s.calls|)
  {
    AfterParts(w, a, i);
    forall v: Value | Means(After(w, a, i).regs[0], v, |s.calls|)
      ensures RegsHold(After(w, a, i), ReturnRegs(v, saved, |s.calls|), |s.calls|)
    {
      CallRegs(w, a, s, i, s.pc + 1, saved.resume, v);
    }
  }

  /** The caller's own frame while its callee runs, from what the analysis says around the call. */
  lemma {:induction false} SuspendsAt(k: World, states: States, i: nat, s: State, saved: Saved)
    requires i < |k.w.p| && IsCall(k.w.p[i]) && i in states && Shaped(states[i]) && i + 1 in states && Shaped(states[i + 1])
    requires Covers(states[i + 1], After(k.w, states[i], i)) && Weak(After(k.w, states[i], i)) && RegsHold(states[i], s.regs, |s.calls|)
    requires saved == SaveFrame(s, s.pc + 1, saved.resume) && (saved.resume.Plain? <==> Direct(k.w, i))
    ensures Suspended(k, states, i, saved, |s.calls|)
  {
    AfterParts(k.w, states[i], i);
    SuspendedRegs(k.w, states[i], s, i, saved);
  }

  lemma {:induction false} CallerSuspends(k: World, c: Config, b: Book, i: nat, saved: Saved)
    requires WorldOk(k) && Top(k, c, b) && i == IndexOf(k.w.p, c.s.pc) && IsCall(k.w.p[i])
    requires saved == SaveFrame(c.s, c.s.pc + 1, saved.resume) && (saved.resume.Plain? <==> Direct(k.w, i))
    requires k.out[b.fn[|c.s.calls|]].Proven?
    requires Weak(After(k.w, k.out[b.fn[|c.s.calls|]].states[i], i))
    ensures IndexOf(k.w.p, saved.ret) == i + 1
    ensures Suspended(k, k.out[b.fn[|c.s.calls|]].states, i, saved, |c.s.calls|)
  {
    var f := b.fn[|c.s.calls|];
    CallReturnsTo(k, c, b, i);
    CallCovered(k, f, i);
    SuspendsAt(k, k.out[f].states, i, c.s, saved);
  }

  lemma {:induction false} CallReturnsTo(k: World, c: Config, b: Book, i: nat)
    requires WorldOk(k) && BookOk(k, c, b) && Located(k, c, b) && i == IndexOf(k.w.p, c.s.pc) && IsCall(k.w.p[i])
    ensures IndexOf(k.w.p, c.s.pc + 1) == i + 1 && Within(k.w, b.fn[|c.s.calls|], i + 1)
  {
    StepLeads(k, c, b, i);
  }

  lemma {:induction false} CallCovered(k: World, f: nat, i: nat)
    requires WorldOk(k) && f < |k.out| && k.out[f].Proven? && i in k.out[f].states && i < |k.w.p| && IsCall(k.w.p[i])
    ensures var states := k.out[f].states;
      Shaped(states[i]) && i + 1 in states && Shaped(states[i + 1]) && Covers(states[i + 1], After(k.w, states[i], i))
  {
    AnalysisFollows(k, f, i, i + 1);
  }

  /** The caller's frame is shielded: nothing below reaches it, or nothing is claimed of it. */
  lemma {:induction false} ShieldsAt(k: World, b': Book, calls: seq<Saved>, a: Known, i: nat, m: Memory, m': Memory, low: int, j: nat)
    requires i < |k.w.p| && IsCall(k.w.p[i]) && Shaped(a) && SlotsHold(a, m, j) && AliasOnly(m, m', j, low)
    requires j + 1 == |calls| == |b'.seal| && |b'.fn| == |calls| + 1 && b'.fn[j + 1] < |k.w.fns|
    requires (calls[j].resume.Plain? <==> Direct(k.w, i)) && (if Direct(k.w, i) then a.floor else FloorOver(a, 5)) <= low
    requires !b'.seal[j] ==> Exposed(a) && (if Direct(k.w, i) then Free(k.w, i) ==> WriteFree(k.w, b'.fn[j + 1]) else NoClaims(After(k.w, a, i)))
    ensures Weak(After(k.w, a, i)) && Shield(k, b', calls, m', low, After(k.w, a, i), j)
  {
    CallSlots(k.w, a, i, m, m', j, low);
    AfterParts(k.w, a, i);
    if !b'.seal[j] && Direct(k.w, i) && !Free(k.w, i) {
      ExposedIsAny(k.w, a, i);
    }
  }

  lemma {:induction false} CallerShielded(k: World, c: Config, c': Config, b: Book, b': Book, i: nat, saved: Saved)
    requires WorldOk(k) && Top(k, c, b) && i == IndexOf(k.w.p, c.s.pc) && IsCall(k.w.p[i])
    requires saved == SaveFrame(c.s, c.s.pc + 1, saved.resume) && (saved.resume.Plain? <==> Direct(k.w, i))
    requires BookOk(k, c', b') && c'.s.calls == c.s.calls + [saved] && b'.fn[..|c.s.calls| + 1] == b.fn
    requires AliasOnly(c.s.mem, c'.s.mem, |c.s.calls|, c'.low[|c.s.calls|])
    requires var d, f := |c.s.calls|, b.fn[|c.s.calls|];
      k.out[f].Proven? ==>
        var a := k.out[f].states[i];
        (if Direct(k.w, i) then a.floor else FloorOver(a, 5)) <= c'.low[d] &&
        (!b'.seal[d] ==> Exposed(a) && (if Direct(k.w, i) then Free(k.w, i) ==> WriteFree(k.w, b'.fn[d + 1]) else NoClaims(After(k.w, a, i))))
    ensures WaitOk(k, c', b', |c.s.calls|)
  {
    var d := |c.s.calls|;
    assert b'.fn[d] == b'.fn[..d + 1][d] == b.fn[d];
    if k.out[b.fn[d]].Proven? {
      CallerSuspendedShielded(k, c, c', b, b', i, saved, k.out[b.fn[d]].states[i]);
    }
  }

  lemma {:induction false} CallerSuspendedShielded(k: World, c: Config, c': Config, b: Book, b': Book, i: nat, saved: Saved, a: Known)
    requires WorldOk(k) && Top(k, c, b) && i == IndexOf(k.w.p, c.s.pc) && IsCall(k.w.p[i])
    requires saved == SaveFrame(c.s, c.s.pc + 1, saved.resume) && (saved.resume.Plain? <==> Direct(k.w, i))
    requires BookOk(k, c', b') && c'.s.calls == c.s.calls + [saved] && b'.fn[|c.s.calls|] == b.fn[|c.s.calls|]
    requires AliasOnly(c.s.mem, c'.s.mem, |c.s.calls|, c'.low[|c.s.calls|])
    requires k.out[b.fn[|c.s.calls|]].Proven? && a == k.out[b.fn[|c.s.calls|]].states[i] && Describes(a, c.s, c.low[|c.s.calls|])
    requires (if Direct(k.w, i) then a.floor else FloorOver(a, 5)) <= c'.low[|c.s.calls|]
    requires !b'.seal[|c.s.calls|] ==>
      Exposed(a) && (if Direct(k.w, i) then Free(k.w, i) ==> WriteFree(k.w, b'.fn[|c.s.calls| + 1]) else NoClaims(After(k.w, a, i)))
    ensures WaitOk(k, c', b', |c.s.calls|)
  {
    var d := |c.s.calls|;
    ShieldsAt(k, b', c'.s.calls, a, i, c.s.mem, c'.s.mem, c'.low[d], d);
    CallerSuspends(k, c, b, i, saved);
    WaitsFrom(k, c', b', d, k.out[b'.fn[d]].states, i);
  }

  lemma {:induction false} WaitsFrom(k: World, c: Config, b: Book, j: nat, states: States, i: nat)
    requires j < |c.s.calls| == |b.seal| && |b.fn| == |c.s.calls| + 1 == |c.low| && b.fn[j] < |k.out|
    requires k.out[b.fn[j]].Proven? && states == k.out[b.fn[j]].states && IndexOf(k.w.p, c.s.calls[j].ret) == i + 1
    requires Suspended(k, states, i, c.s.calls[j], j)
    requires Shield(k, b, c.s.calls, c.s.mem, c.low[j], After(k.w, states[i], i), j)
    ensures WaitOk(k, c, b, j)
  {
  }

  lemma {:induction false} CallerSaved(k: World, c: Config, b: Book, b': Book, i: nat, saved: Saved, f: nat, more: bool)
    requires WorldOk(k) && Top(k, c, b) && i == IndexOf(k.w.p, c.s.pc) && IsCall(k.w.p[i])
    requires saved == SaveFrame(c.s, c.s.pc + 1, saved.resume) && b' == Book(b.fn + [f], b.seal + [more])
    requires saved.resume.Token? ==> forall e | e in k.grants.of(saved.resume.k) :: e <= |c.s.calls| && !b'.seal[e]
    ensures SavedOk(k, b', saved, |c.s.calls|)
  {
    var d := |c.s.calls|;
    CallReturnsTo(k, c, b, i);
    forall r | 6 <= r <= 9
      ensures Allowed(c.s.regs[r], d, b'.seal)
    {
      assert Allowed(c.s.regs[r], d, b.seal);
      AllowedGrows(c.s.regs[r], d, b.seal, more);
    }
  }

  // ---------------------------------------------------------------- callbacks

  /** The configuration once the helper has run but before its callback starts. */
  ghost function AfterHelper(k: World, c: Config, i: nat): Config
    requires i < |k.w.p| && |c.s.regs| == 11 && |c.low| == |c.s.calls| + 1
  {
    Config(c.s.(mem := k.env.ext(CallOut(k.env, k.w.p[i], c.s.regs), c.s.mem).mem), LowNow(k.env, c, k.w.p[i]))
  }

  lemma {:induction false} HelperKeepsBase(k: World, c: Config, b: Book, i: nat)
    requires WorldOk(k) && Inv(k, c, b) && i == IndexOf(k.w.p, c.s.pc) && (IsExternal(k.w.p[i]) || k.w.p[i].op.LoadLegacy?)
    requires CallOutLaw(k.env, k.w, k.L, k.grants, c, k.w.p[i])
    ensures Base(k, AfterHelper(k, c, i), b)
  {
    ExternalTolerable(k, c, b, i);
    BaseSurvives(k, c, AfterHelper(k, c, i), b);
  }

  /** The configuration with the new frame's stale bytes turned to data. */
  ghost function WithMemory(c: Config, m: Memory): Config {
    c.(s := c.s.(mem := m))
  }

  lemma {:induction false} RefreshKeepsBase(k: World, c: Config, b: Book, m': Memory)
    requires Base(k, c, b) && Refreshed(c.s.mem, m', |c.s.calls| + 1)
    ensures Base(k, WithMemory(c, m'), b)
  {
    forall j | 0 <= j < |b.fn|
      ensures FrameOk(k, b, m', j)
    {
      assert FrameOk(k, b, c.s.mem, j);
      SameFrameBytes(k, b, c.s.mem, m', j);
    }
    BaseSurvives(k, c, WithMemory(c, m'), b);
  }

  lemma {:induction false} SameFrameBytes(k: World, b: Book, m: Memory, m': Memory, j: nat)
    requires j < |b.fn| && FrameOk(k, b, m, j) && forall o: int :: m'(Frame(j), o) == m(Frame(j), o)
    ensures FrameOk(k, b, m', j)
  {
    forall o: int
      ensures Allowed(m'(Frame(j), o).v, j, b.seal)
      ensures Tracked(m'(Frame(j), o).v) ==> (o - m'(Frame(j), o).k) % 8 == 0
    {
      assert Allowed(m(Frame(j), o).v, j, b.seal);
    }
  }

  lemma {:induction false} RefreshIsAlias(m: Memory, m1: Memory, m': Memory, d: nat, low: int)
    requires AliasOnly(m, m1, d, low) && Refreshed(m1, m', d + 1)
    ensures AliasOnly(m, m', d, low)
  {
    forall o: int
      ensures m'(Frame(d), o) == m(Frame(d), o) || (o >= low && !Tracked(m'(Frame(d), o).v))
    {
      assert m'(Frame(d), o) == m1(Frame(d), o);
    }
  }

  /** Arguments drawn from `reach` are fine in a new frame above `d`. */
  lemma {:induction false} DrawnAllowed(args: seq<Value>, reach: set<nat>, d: nat, seal: seq<bool>)
    requires |args| == 5 && ArgsFrom(args, reach) && |seal| == d
    requires forall e | e in reach :: e < d && !seal[e]
    ensures AllAllowed(EntryRegs(args[0], args[1], args[2], args[3], args[4], d), d, seal)
  {
    var regs := EntryRegs(args[0], args[1], args[2], args[3], args[4], d);
    forall r | 0 <= r < 11
      ensures Allowed(regs[r], d, seal)
    {
      if 1 <= r <= 5 {
        assert regs[r] == args[r - 1];
      }
    }
  }

  /** A callback's function is never proved, and its entry lies in it. */
  lemma {:induction false} CallbackFn(k: World, pc: int) returns (f: nat)
    requires WorldOk(k) && CallbackAt(k.w, pc)
    ensures 0 < f < |k.w.fns| == |k.out| && !k.out[f].Proven? && Within(k.w, f, IndexOf(k.w.p, pc))
  {
    WorldFacts(k);
    f :| 0 < f < |k.w.fns| && k.w.fns[f].lo < |k.w.p| && IsCallback(k.w, k.w.fns[f].lo) && pc == Slot(k.w.p, k.w.fns[f].lo);
    assert Grounded(k.w, k.out, f) && FnOk(k.w, f);
    IndexOfSlot(k.w.p, k.w.fns[f].lo);
  }

  /** What a helper that runs a callback leaves. */
  ghost predicate StartedCallback(k: World, c: Config, c': Config, i: nat)
    requires i < |k.w.p| && |c.s.regs| == 11 && |c.low| == |c.s.calls| + 1
  {
    var out, d := k.env.ext(CallOut(k.env, k.w.p[i], c.s.regs), c.s.mem), |c.s.calls|;
    out.Invoke? && |out.args| == 5 && Refreshed(out.mem, c'.s.mem, d + 1) && c'.s.pc == k.L.at(out.code) &&
    c'.s.calls == c.s.calls + [SaveFrame(c.s, c.s.pc + 1, Token(out.token))] && c'.low == LowNow(k.env, c, k.w.p[i]) + [0] &&
    c'.s.regs == EntryRegs(out.args[0], out.args[1], out.args[2], out.args[3], out.args[4], d + 1)
  }

  lemma {:induction false} NextStartsCallback(k: World, c: Config, c': Config, i: nat)
    requires k.L.insns == k.w.p && Next(k.env, k.w, k.L, k.grants, c, c')
    requires i == IndexOf(k.w.p, c.s.pc) && (IsExternal(k.w.p[i]) || k.w.p[i].op.LoadLegacy?)
    requires k.env.ext(CallOut(k.env, k.w.p[i], c.s.regs), c.s.mem).Invoke?
    ensures StartedCallback(k, c, c', i) && CallOutLaw(k.env, k.w, k.L, k.grants, c, k.w.p[i]) && IsExternal(k.w.p[i])
  {
  }

  /** A helper reaches the frames its arguments point into: none is sealed once the caller's own seal is set. */
  lemma {:induction false} ReachUnsealed(k: World, c: Config, b: Book, ins: Insn, e: nat)
    requires BookOk(k, c, b) && Located(k, c, b) && e in FramesIn(CallOut(k.env, ins, c.s.regs).args)
    ensures var d, reach := |c.s.calls|, FramesIn(CallOut(k.env, ins, c.s.regs).args); e < d + 1 && !(b.seal + [d !in reach])[e]
  {
    CallArgsAllowed(k, c, b, ins);
    ArgsUnsealed(CallOut(k.env, ins, c.s.regs).args, |c.s.calls|, b.seal, e);
  }

  /** A helper given a pointer into the frame: the tracker saw it. */
  lemma {:induction false} HelperExposure(k: World, c: Config, a: Known, ins: Insn)
    requires |c.low| == |c.s.calls| + 1 && Describes(a, c.s, c.low[|c.s.calls|]) && IsExternal(ins)
    ensures |c.s.calls| in FramesIn(CallOut(k.env, ins, c.s.regs).args) ==> Exposed(a)
  {
    var args, d := CallOut(k.env, ins, c.s.regs).args, |c.s.calls|;
    forall n | 0 <= n < |args|
      ensures args[n] == c.s.regs[n + 1] && (PointsInto(args[n], d) ==> Exposed(a))
    {
      NotExposed(a, c.s.regs, d, n + 1);
    }
  }

  lemma {:induction false} CallbackShields(k: World, c: Config, c': Config, b: Book, b': Book, i: nat)
    requires WorldOk(k) && Top(k, c, b) && i == IndexOf(k.w.p, c.s.pc) && IsExternal(k.w.p[i])
    requires CallOutLaw(k.env, k.w, k.L, k.grants, c, k.w.p[i]) && StartedCallback(k, c, c', i) && BookOk(k, c', b')
    requires AliasOnly(c.s.mem, c'.s.mem, |c.s.calls|, c'.low[|c.s.calls|]) && b'.fn[..|c.s.calls| + 1] == b.fn
    requires b'.seal[|c.s.calls|] == (|c.s.calls| !in FramesIn(CallOut(k.env, k.w.p[i], c.s.regs).args))
    ensures WaitOk(k, c', b', |c.s.calls|)
  {
    var d, ins := |c.s.calls|, k.w.p[i];
    var out := k.env.ext(CallOut(k.env, ins, c.s.regs), c.s.mem);
    if k.out[b.fn[d]].Proven? {
      var a := k.out[b.fn[d]].states[i];
      FloorHolds(k, c, a, ins);
      HelperExposure(k, c, a, ins);
      WorldFacts(k);
      assert RecognisedAt(k, a, i);
    }
    CallerShielded(k, c, c', b, b', i, SaveFrame(c.s, c.s.pc + 1, Token(out.token)));
  }

  lemma {:induction false} GuardsAreSeals(k: World, c: Config, b: Book, i: nat)
    requires BookOk(k, c, b) && Located(k, c, b) && i == IndexOf(k.w.p, c.s.pc) && IsCall(k.w.p[i])
    ensures forall j | 0 <= j < |c.s.calls| && Guard(k, b, c.s.calls, j) :: b.seal[j]
  {
    forall j | 0 <= j < |c.s.calls| && Guard(k, b, c.s.calls, j)
      ensures b.seal[j]
    {
      CallerNotFree(k, c, b, i, j);
    }
  }

  lemma {:induction false} CallbackBook(k: World, c: Config, c': Config, b: Book, b': Book, f: nat)
    requires BookOk(k, c, b) && 0 < f < |k.w.fns| && |b'.seal| == |c.s.calls| + 1
    requires b'.fn == b.fn + [f] && |c'.s.calls| == |c.s.calls| + 1 && c'.low == c.low + [0]
    ensures BookOk(k, c', b') && b'.fn[..|c.s.calls| + 1] == b.fn
  {
  }

  /** The book once a call is made: the callee's function, and whether the arguments leave the caller's frame alone. */
  ghost function Pushed(b: Book, f: nat, d: nat, args: seq<Value>): Book {
    Book(b.fn + [f], b.seal + [d !in FramesIn(args)])
  }

  lemma {:induction false} CallbackSaved(k: World, c: Config, b: Book, i: nat, f: nat)
    requires WorldOk(k) && Top(k, c, b) && i == IndexOf(k.w.p, c.s.pc) && IsExternal(k.w.p[i])
    requires CallOutLaw(k.env, k.w, k.L, k.grants, c, k.w.p[i]) && k.env.ext(CallOut(k.env, k.w.p[i], c.s.regs), c.s.mem).Invoke?
    ensures var d, args := |c.s.calls|, CallOut(k.env, k.w.p[i], c.s.regs).args;
      var b', token := Pushed(b, f, d, args), k.env.ext(CallOut(k.env, k.w.p[i], c.s.regs), c.s.mem).token;
      SavedOk(k, b', SaveFrame(c.s, c.s.pc + 1, Token(token)), d) && forall e | e in FramesIn(args) :: e < d + 1 && !b'.seal[e]
  {
    var d, ins := |c.s.calls|, k.w.p[i];
    var args := CallOut(k.env, ins, c.s.regs).args;
    var b', token := Pushed(b, f, d, args), k.env.ext(CallOut(k.env, ins, c.s.regs), c.s.mem).token;
    forall e | e in FramesIn(args)
      ensures e < d + 1 && !b'.seal[e]
    {
      ReachUnsealed(k, c, b, ins, e);
    }
    CallerSaved(k, c, b, b', i, SaveFrame(c.s, c.s.pc + 1, Token(token)), f, d !in FramesIn(args));
  }

  lemma {:induction false} CallbackStarts(k: World, c: Config, c': Config, b: Book, i: nat) returns (b': Book)
    requires WorldOk(k) && Inv(k, c, b) && i == IndexOf(k.w.p, c.s.pc) && IsExternal(k.w.p[i])
    requires CallOutLaw(k.env, k.w, k.L, k.grants, c, k.w.p[i]) && StartedCallback(k, c, c', i)
    ensures Inv(k, c', b')
  {
    var d, args := |c.s.calls|, CallOut(k.env, k.w.p[i], c.s.regs).args;
    var f := CallbackFn(k, c'.s.pc);
    b' := Pushed(b, f, d, args);
    HelperKeepsBase(k, c, b, i);
    CallbackSaved(k, c, b, i, f);
    CallbackWaits(k, c, c', b, b', i, f);
    GuardsAreSeals(k, c, b, i);
    RefreshKeepsBase(k, AfterHelper(k, c, i), b, c'.s.mem);
    CallbackPushes(k, WithMemory(AfterHelper(k, c, i), c'.s.mem), c', b, b', f, args, k.env.ext(CallOut(k.env, k.w.p[i], c.s.regs), c.s.mem).args);
  }

  lemma {:induction false} CallbackWaits(k: World, c: Config, c': Config, b: Book, b': Book, i: nat, f: nat)
    requires WorldOk(k) && Inv(k, c, b) && i == IndexOf(k.w.p, c.s.pc) && IsExternal(k.w.p[i])
    requires CallOutLaw(k.env, k.w, k.L, k.grants, c, k.w.p[i]) && StartedCallback(k, c, c', i)
    requires 0 < f < |k.w.fns| && b' == Pushed(b, f, |c.s.calls|, CallOut(k.env, k.w.p[i], c.s.regs).args)
    requires BookOk(k, AfterHelper(k, c, i), b)
    ensures BookOk(k, c', b') && WaitOk(k, c', b', |c.s.calls|)
  {
    ExternalTolerable(k, c, b, i);
    RefreshIsAlias(c.s.mem, AfterHelper(k, c, i).s.mem, c'.s.mem, |c.s.calls|, AfterHelper(k, c, i).low[|c.s.calls|]);
    CallbackBook(k, AfterHelper(k, c, i), c', b, b', f);
    CallbackShields(k, c, c', b, b', i);
  }

  /** A frame whose arguments come from what the caller could reach. */
  lemma {:induction false} CallbackPushes(k: World, c: Config, c': Config, b: Book, b': Book, f: nat, given: seq<Value>, args: seq<Value>)
    requires Base(k, c, b) && 0 < f < |k.w.fns| && !k.out[f].Proven? && b' == Pushed(b, f, |c.s.calls|, given)
    requires |c'.s.calls| == |c.s.calls| + 1 && c'.s.calls[..|c.s.calls|] == c.s.calls && c'.s.mem == c.s.mem && c'.low == c.low + [0]
    requires FreshFrame(c'.s.mem, |c.s.calls| + 1) && Within(k.w, f, IndexOf(k.w.p, c'.s.pc))
    requires forall j | 0 <= j < |c.s.calls| && Guard(k, b, c.s.calls, j) :: b.seal[j]
    requires SavedOk(k, b', c'.s.calls[|c.s.calls|], |c.s.calls|) && WaitOk(k, c', b', |c.s.calls|)
    requires |args| == 5 && ArgsFrom(args, FramesIn(given)) && forall e | e in FramesIn(given) :: e < |c.s.calls| + 1 && !b'.seal[e]
    requires c'.s.regs == EntryRegs(args[0], args[1], args[2], args[3], args[4], |c.s.calls| + 1)
    ensures Inv(k, c', b')
  {
    var d := |c.s.calls|;
    assert c'.s.calls == c.s.calls + [c'.s.calls[d]];
    PushBase(k, c, c', b, b', c'.s.calls[d], f, d !in FramesIn(given));
    DrawnAllowed(args, FramesIn(given), d + 1, b'.seal);
  }

  // ---------------------------------------------------------------- calls to other functions

  /** What a call to another function leaves. */
  ghost predicate EnteredFunction(k: World, c: Config, c': Config, i: nat)
    requires i < |k.w.p| && |c.s.regs| == 11 && |c.low| == |c.s.calls| + 1
  {
    var d := |c.s.calls|;
    Refreshed(c.s.mem, c'.s.mem, d + 1) && c'.s.pc == Target(k.w.p, c.s.pc, k.w.p[i]) &&
    c'.s.calls == c.s.calls + [SaveFrame(c.s, c.s.pc + 1, Plain)] && c'.low == c.low + [0] &&
    c'.s.regs == EntryRegs(c.s.regs[1], c.s.regs[2], c.s.regs[3], c.s.regs[4], c.s.regs[5], d + 1)
  }

  lemma {:induction false} NextEnters(k: World, c: Config, c': Config, i: nat)
    requires k.L.insns == k.w.p && Next(k.env, k.w, k.L, k.grants, c, c')
    requires i == IndexOf(k.w.p, c.s.pc) && k.w.p[i].op.CallFunc?
    ensures EnteredFunction(k, c, c', i) && CallLaw(k.w, c.s.regs, i)
  {
  }

  /** The callee is the function at the target. */
  lemma {:induction false} CalleeFn(k: World, i: nat) returns (f: nat)
    requires WorldOk(k) && i < |k.w.p| && k.w.p[i].op.CallFunc?
    ensures 0 < f < |k.w.fns| == |k.out| && k.w.fns[f].lo == Callee(k.w, i) == IndexOf(k.w.p, Target(k.w.p, Slot(k.w.p, i), k.w.p[i]))
    ensures FnOk(k.w, f) && (Free(k.w, i) ==> WriteFree(k.w, f))
  {
    WorldFacts(k);
    assert CallsFunction(k.w, i);
    f :| 0 < f < |k.w.fns| && k.w.fns[f].lo == Callee(k.w, i);
    assert FnOk(k.w, f);
    if k.w.p[i].ref != "" {
      IndexOfSlot(k.w.p, FindSym(k.w.p, k.w.p[i].ref));
    }
    if Free(k.w, i) {
      var g :| 0 <= g < |k.w.fns| && k.w.fns[g].lo == Callee(k.w, i) && WriteFree(k.w, g);
      SameStart(k.w, f, g);
    }
  }

  lemma {:induction false} SameStart(w: Flow, f: nat, g: nat)
    requires FlowOk(w) && f < |w.fns| && g < |w.fns| && w.fns[f].lo == w.fns[g].lo
    ensures f == g
  {
    assert FnOk(w, f) && FnOk(w, g);
  }

  lemma {:induction false} FunctionExposure(c: Config, a: Known)
    requires |c.low| == |c.s.calls| + 1 && Describes(a, c.s, c.low[|c.s.calls|])
    ensures |c.s.calls| in FramesIn(c.s.regs[1..6]) ==> Exposed(a)
  {
    var args, d := c.s.regs[1..6], |c.s.calls|;
    forall n | 0 <= n < 5
      ensures PointsInto(args[n], d) ==> Exposed(a)
    {
      NotExposed(a, c.s.regs, d, n + 1);
    }
  }

  lemma {:induction false} FunctionShields(k: World, c: Config, c': Config, b: Book, b': Book, i: nat)
    requires WorldOk(k) && Top(k, c, b) && i == IndexOf(k.w.p, c.s.pc) && k.w.p[i].op.CallFunc?
    requires EnteredFunction(k, c, c', i) && BookOk(k, c', b') && b'.fn[..|c.s.calls| + 1] == b.fn
    requires b'.seal[|c.s.calls|] == (|c.s.calls| !in FramesIn(c.s.regs[1..6]))
    requires Free(k.w, i) ==> WriteFree(k.w, b'.fn[|c.s.calls| + 1])
    ensures WaitOk(k, c', b', |c.s.calls|)
  {
    var d := |c.s.calls|;
    if k.out[b.fn[d]].Proven? {
      FunctionExposure(c, k.out[b.fn[d]].states[i]);
    }
    RefreshIsAlias(c.s.mem, c.s.mem, c'.s.mem, d, c'.low[d]);
    CallerShielded(k, c, c', b, b', i, SaveFrame(c.s, c.s.pc + 1, Plain));
  }

  /** The callee's registers: nothing points into its own new frame. */
  lemma {:induction false} EntryAllowed(k: World, c: Config, b: Book, b': Book, f: nat)
    requires BookOk(k, c, b) && Located(k, c, b) && b' == Pushed(b, f, |c.s.calls|, c.s.regs[1..6])
    ensures var d := |c.s.calls|;
      AllAllowed(EntryRegs(c.s.regs[1], c.s.regs[2], c.s.regs[3], c.s.regs[4], c.s.regs[5], d + 1), d + 1, b'.seal)
  {
    var d, args := |c.s.calls|, c.s.regs[1..6];
    var regs := EntryRegs(c.s.regs[1], c.s.regs[2], c.s.regs[3], c.s.regs[4], c.s.regs[5], d + 1);
    forall r | 0 <= r < 11
      ensures Allowed(regs[r], d + 1, b'.seal)
    {
      if 1 <= r <= 5 {
        assert regs[r] == c.s.regs[r] == args[r - 1];
        assert Allowed(c.s.regs[r], d, b.seal);
        if regs[r].Ptr? && regs[r].region.Frame? {
          assert regs[r].region.depth in FramesIn(args);
        }
      }
    }
  }

  /** The state a proved function starts in. */
  lemma {:induction false} StartDescribed(param: int, s: State)
    requires 0 <= param < 5 && WellFormed(s) && s.regs[1 + param] == CTX && FreshFrame(s.mem, |s.calls|)
    requires forall r | 0 <= r < 10 :: !PointsInto(s.regs[r], |s.calls|)
    ensures Describes(Initial(param), s, 0)
  {
    var a, d := Initial(param), |s.calls|;
    forall n | 0 <= n < SLOTS
      ensures SlotHolds(a.slots[n], SlotBytes(s.mem, d, n), d)
    {
      SlotTouched(s.mem, d, n, SlotOff(n));
    }
  }

  /** Every call to a proved function passes the context. */
  /** A proved function has a context parameter, and unless it is global each of its callers is proved and passes it. */
  lemma {:induction false} ProvenIsPassed(w: Flow, out: seq<Verdict>, f: nat, g: nat, i: nat)
    requires AllGrounded(w, out) && 0 < f < |out| && out[f].Proven? && g < |out| && IsCaller(w, f, g, i)
    ensures 0 <= w.fns[f].param < 5 && (!w.fns[f].isGlobal ==> Passes(w, out, f, g, i))
  {
    assert Grounded(w, out, f);
  }

  lemma {:induction false} CallPassesContext(k: World, c: Config, b: Book, i: nat, f: nat)
    requires WorldOk(k) && Top(k, c, b) && i == IndexOf(k.w.p, c.s.pc) && k.w.p[i].op.CallFunc? && CallLaw(k.w, c.s.regs, i)
    requires 0 < f < |k.out| && k.w.fns[f].lo == Callee(k.w, i) && k.out[f].Proven?
    ensures 0 <= k.w.fns[f].param < 5 && c.s.regs[1 + k.w.fns[f].param] == CTX
  {
    var g := b.fn[|c.s.calls|];
    WorldFacts(k);
    ProvenIsPassed(k.w, k.out, f, g, i);
    if !k.w.fns[f].isGlobal {
      assert Means(k.out[g].states[i].regs[1 + k.w.fns[f].param], c.s.regs[1 + k.w.fns[f].param], |c.s.calls|);
    }
  }

  lemma {:induction false} CalleeDescribed(k: World, c: Config, c': Config, b: Book, b': Book, i: nat, f: nat)
    requires WorldOk(k) && Top(k, c, b) && i == IndexOf(k.w.p, c.s.pc) && k.w.p[i].op.CallFunc? && CallLaw(k.w, c.s.regs, i)
    requires EnteredFunction(k, c, c', i) && BookOk(k, c', b') && b'.fn[|c.s.calls| + 1] == f
    requires 0 < f < |k.out| && k.w.fns[f].lo == Callee(k.w, i) == IndexOf(k.w.p, c'.s.pc)
    ensures TopOk(k, c', b')
  {
    if k.out[f].Proven? {
      var d, states, param := |c.s.calls|, k.out[f].states, k.w.fns[f].param;
      CallPassesContext(k, c, b, i, f);
      forall r | 1 <= r <= 5
        ensures !PointsInto(c.s.regs[r], d + 1)
      {
        assert Allowed(c.s.regs[r], d, b.seal);
      }
      StartDescribed(param, c'.s);
      StartCovered(k, f);
      DescribesUp(Initial(param), states[k.w.fns[f].lo], c'.s.regs, c'.s.mem, d + 1);
    }
  }

  /** A proved function's analysis covers the state it starts in. */
  lemma {:induction false} StartCovered(k: World, f: nat)
    requires WorldOk(k) && f < |k.out| && k.out[f].Proven?
    ensures 0 <= k.w.fns[f].param < 5 && (f == 0 ==> k.w.fns[f].param == 0) && k.w.fns[f].lo in k.out[f].states
    ensures Shaped(k.out[f].states[k.w.fns[f].lo]) && Covers(k.out[f].states[k.w.fns[f].lo], Initial(k.w.fns[f].param))
  {
    WorldFacts(k);
    assert Grounded(k.w, k.out, f);
  }

  lemma {:induction false} FunctionSaved(k: World, c: Config, b: Book, i: nat, f: nat)
    requires WorldOk(k) && Top(k, c, b) && i == IndexOf(k.w.p, c.s.pc) && k.w.p[i].op.CallFunc?
    ensures SavedOk(k, Pushed(b, f, |c.s.calls|, c.s.regs[1..6]), SaveFrame(c.s, c.s.pc + 1, Plain), |c.s.calls|)
  {
    CallerSaved(k, c, b, Pushed(b, f, |c.s.calls|, c.s.regs[1..6]), i, SaveFrame(c.s, c.s.pc + 1, Plain), f, |c.s.calls| !in FramesIn(c.s.regs[1..6]));
  }

  lemma {:induction false} FunctionStarts(k: World, c: Config, c': Config, b: Book, i: nat) returns (b': Book)
    requires WorldOk(k) && Inv(k, c, b) && i == IndexOf(k.w.p, c.s.pc) && k.w.p[i].op.CallFunc?
    requires EnteredFunction(k, c, c', i) && CallLaw(k.w, c.s.regs, i)
    ensures Inv(k, c', b')
  {
    var d, args := |c.s.calls|, c.s.regs[1..6];
    var f := CalleeFn(k, i);
    b' := Pushed(b, f, d, args);
    FunctionSaved(k, c, b, i, f);
    CallbackBook(k, c, c', b, b', f);
    FunctionShields(k, c, c', b, b', i);
    GuardsAreSeals(k, c, b, i);
    RefreshKeepsBase(k, c, b, c'.s.mem);
    PushBase(k, WithMemory(c, c'.s.mem), c', b, b', c'.s.calls[d], f, d !in FramesIn(args));
    EntryAllowed(k, c, b, b', f);
    CalleeDescribed(k, c, c', b, b', i, f);
  }
}
