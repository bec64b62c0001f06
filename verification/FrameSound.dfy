/** Why an exact frame depth may be trusted: in every execution of the function, along every path and through
    every callee, nothing reaches its frame below that depth. */
module FrameSound {
  import opened Machine
  import opened FrameDepth
  import Liveness

  // ---------------------------------------------------------------- pointers into one frame

  ghost predicate Clean(v: Value, d: nat) {
    v.Ptr? ==> v.region != Frame(d)
  }

  ghost predicate AllClean(vs: seq<Value>, d: nat) {
    forall i | 0 <= i < |vs| :: Clean(vs[i], d)
  }

  /** No byte of memory is part of a pointer into frame `d`. */
  ghost predicate CleanMem(m: Memory, d: nat) {
    forall r: Region, o: int :: Clean(m(r, o).v, d)
  }

  /** What the named helpers do with a stack pointer, as their definitions say: lookup, update and delete read forward of
      a key in R2, update of a value in R3, and xdp_load_bytes writes forward of R3; none keeps or returns it. */
  predicate AccessesForward(id: int, r: int) {
    match id
    case 1 => r == 2
    case 2 => r == 2 || r == 3
    case 3 => r == 2
    case 189 => r == 3
    case _ => false
  }

  lemma {:induction false} ForwardIsKnown(id: int, r: int)
    ensures ForwardArg(id, r) <==> AccessesForward(id, r)
  {
  }

  /** Arguments a call may be given: a pointer into the frame only where the helper accesses forward of it. */
  ghost predicate ArgOk(call: ExtCall, i: nat, d: nat)
    requires i < |call.args|
  {
    Clean(call.args[i], d) || (call.kind.Helper? && AccessesForward(call.id, i + 1))
  }

  ghost predicate ArgsForward(call: ExtCall, d: nat) {
    forall i | 0 <= i < |call.args| :: ArgOk(call, i, d)
  }

  ghost predicate CleanOut(o: ExtOut, d: nat, quiet: int -> bool) {
    match o
    case Done(r0, m) => Clean(r0, d) && CleanMem(m, d)
    case Leave(r0, m) => Clean(r0, d) && CleanMem(m, d)
    case Invoke(_, args, m, token) => AllClean(args, d) && CleanMem(m, d) && quiet(token)
  }

  /** Nothing outside the program invents a pointer into frame `d`: not helpers that were given none (the
      forward-access ones neither keep nor return theirs), not the helpers they resume, not atomics, not constants. */
  ghost predicate Honest(env: Env, d: nat, quiet: int -> bool) {
    (forall call: ExtCall, m: Memory :: ArgsForward(call, d) && CleanMem(m, d) ==> CleanOut(env.ext(call, m), d, quiet)) &&
    (forall k: int, r0: Value, m: Memory :: quiet(k) && Clean(r0, d) && CleanMem(m, d) ==> CleanOut(env.resume(k, r0, m), d, quiet)) &&
    (forall code: nat, size: nat, was: Value, v: Value, r0: Value ::
      Clean(was, d) && Clean(v, d) && Clean(r0, d) ==> Clean(env.atomic(code, size, was, v, r0), d)) &&
    (forall isMap: bool, ref: string, imm: int :: Clean(env.literal(isMap, ref, imm), d))
  }

  /** The lowest part of frame `d` one step touches is at or above `-depth`: its own access, and every pointer it
      hands to a helper. */
  ghost predicate StepWithin(env: Env, L: Loaded, s: State, d: nat, depth: int) {
    var i := IndexOf(L.insns, s.pc);
    i >= 0 && |s.regs| == 11 ==>
      var ins := L.insns[i];
      match ins.op
      case Load(_, _) => High(s.regs[ins.src], d, ins.off, depth)
      case StoreImm(_) => High(s.regs[ins.dst], d, ins.off, depth)
      case Store(_) => High(s.regs[ins.dst], d, ins.off, depth)
      case Atomic(_, _, _) => High(s.regs[ins.dst], d, ins.off, depth)
      case CallHelper => AllHigh(CallOut(env, ins, s.regs).args, d, depth)
      case CallKfunc => AllHigh(CallOut(env, ins, s.regs).args, d, depth)
      case LoadLegacy => AllHigh(CallOut(env, ins, s.regs).args, d, depth)
      case _ => true
  }

  ghost predicate High(v: Value, d: nat, off: int, depth: int) {
    Clean(v, d) || v.off + off >= -depth
  }

  ghost predicate AllHigh(vs: seq<Value>, d: nat, depth: int) {
    forall i | 0 <= i < |vs| :: High(vs[i], d, 0, depth)
  }

  // ---------------------------------------------------------------- the function

  /** The kernel verifier's shape of a function: control stays inside it, and nothing assigns R10. */
  ghost predicate Contained(p: seq<Insn>, lo: nat, hi: nat) {
    lo < hi <= |p| && forall j | lo <= j < hi :: ContainedAt(p, lo, hi, j)
  }

  ghost predicate ContainedAt(p: seq<Insn>, lo: nat, hi: nat, j: nat)
    requires lo <= j < hi <= |p|
  {
    (Liveness.IsJump(p[j]) ==> lo <= IndexOf(p, Target(p, Slot(p, j), p[j])) < hi) &&
    (Liveness.FallsThrough(p[j]) ==> j + 1 < hi) &&
    AssignsNoFp(p[j])
  }

  predicate AssignsNoFp(ins: Insn) {
    ins.op.Alu? || ins.op.LoadImm64? || ins.op.LoadFunc? || ins.op.Load? ==> ins.dst != FP
  }

  lemma {:induction false} LocalTargetIsTarget(p: seq<Insn>, lo: nat, hi: nat, j: nat)
    requires Contained(p, lo, hi) && lo <= j < hi && Liveness.IsJump(p[j])
    ensures LocalTarget(p, lo, hi, j) == Target(p, Slot(p, j), p[j])
  {
    assert ContainedAt(p, lo, hi, j);
    var ref := p[j].ref;
    if ref != "" {
      var i, k := FindSym(p, ref), LocalSym(p, lo, hi, ref);
      var t := IndexOf(p, Target(p, Slot(p, j), p[j]));
      if i >= 0 {
        IndexOfSlot(p, i);
        LastSym(p, ref, |p|, i);
        assert lo <= i < hi;
      }
    }
  }

  lemma {:induction false} LastSym(p: seq<Insn>, name: string, n: nat, i: nat)
    requires n <= |p| && SearchSym(p, name, n) == i
    ensures forall k | i < k < n :: p[k].sym != name
    decreases n
  {
    if n > 0 && p[n - 1].sym != name {
      LastSym(p, name, n - 1, i);
    }
  }

  /** Where control joins, no register aliases the stack. */
  lemma {:induction false} JumpLandsUnaliased(p: seq<Insn>, lo: nat, hi: nat, j: nat)
    requires Contained(p, lo, hi) && lo <= j < hi && Liveness.IsJump(p[j]) && Exact(p, lo, hi)
    ensures var t := IndexOf(p, Target(p, Slot(p, j), p[j])); lo <= t < hi && !Live(AliasesAt(p, lo, t))
  {
    assert ContainedAt(p, lo, hi, j);
    LocalTargetIsTarget(p, lo, hi, j);
    var t := IndexOf(p, Target(p, Slot(p, j), p[j]));
    assert IsTarget(p, lo, hi, Slot(p, t));
    assert FollowsAt(p, lo, hi, t);
  }

  // ---------------------------------------------------------------- what holds along a run

  /** A register that points into frame `d` is a known alias with that offset. */
  ghost predicate Matches(a: Aliases, regs: seq<Value>, d: nat) {
    |regs| == 11 && regs[FP] == FramePtr(d) && a[FP] == Stack(0) &&
    forall r | 0 <= r < 10 :: Clean(regs[r], d) || a[r] == Stack(regs[r].off)
  }

  ghost predicate Inside(p: seq<Insn>, lo: nat, hi: nat, d: nat, s: State) {
    |s.calls| == d && var i := IndexOf(p, s.pc); lo <= i < hi && Matches(AliasesAt(p, lo, i), s.regs, d)
  }

  ghost predicate CleanSaved(c: Saved, d: nat, quiet: int -> bool) {
    Clean(c.r6, d) && Clean(c.r7, d) && Clean(c.r8, d) && Clean(c.r9, d) && (c.resume.Token? ==> quiet(c.resume.k))
  }

  /** The activation waits for a callee; when it continues, its registers will be as the pass says. */
  ghost predicate Waiting(p: seq<Insn>, lo: nat, hi: nat, d: nat, quiet: int -> bool, c: Saved) {
    (c.resume.Token? ==> quiet(c.resume.k)) &&
    var i := IndexOf(p, c.ret);
    lo <= i < hi && forall v: Value | Clean(v, d) :: Matches(AliasesAt(p, lo, i), ReturnRegs(v, c, d), d)
  }

  ghost predicate Beyond(p: seq<Insn>, lo: nat, hi: nat, d: nat, quiet: int -> bool, s: State) {
    |s.calls| > d && WellFormed(s) && AllClean(s.regs, d) && CallsOk(p, lo, hi, d, quiet, s.calls)
  }

  ghost predicate CallsOk(p: seq<Insn>, lo: nat, hi: nat, d: nat, quiet: int -> bool, calls: seq<Saved>) {
    |calls| > d && Waiting(p, lo, hi, d, quiet, calls[d]) && forall k | d < k < |calls| :: CleanSaved(calls[k], d, quiet)
  }

  ghost predicate Active(p: seq<Insn>, lo: nat, hi: nat, d: nat, quiet: int -> bool, s: State) {
    CleanMem(s.mem, d) && (Inside(p, lo, hi, d, s) || Beyond(p, lo, hi, d, quiet, s))
  }

  /** The step that leaves the activation: its own exit, or a tail call it makes. */
  ghost predicate Ends(env: Env, L: Loaded, s: State, d: nat) {
    |s.calls| == d && |s.regs| == 11 && IndexOf(L.insns, s.pc) >= 0 &&
    var ins := L.insns[IndexOf(L.insns, s.pc)];
    ins.op.Exit? || ((ins.op.CallHelper? || ins.op.CallKfunc? || ins.op.LoadLegacy?) && env.ext(CallOut(env, ins, s.regs), s.mem).Leave?)
  }

  // ---------------------------------------------------------------- inside the function

  lemma {:induction false} Fall(p: seq<Insn>, lo: nat, hi: nat, i: nat)
    requires Contained(p, lo, hi) && lo <= i < hi && Liveness.FallsThrough(p[i])
    ensures IndexOf(p, Slot(p, i) + Width(p[i])) == i + 1 && i + 1 < hi
    ensures AliasesAt(p, lo, i + 1) == After(p[i], AliasesAt(p, lo, i))
  {
    assert ContainedAt(p, lo, hi, i);
    NextSlot(p, i);
  }

  lemma {:induction false} LoadsClean(env: Env, m: Memory, r: Region, at: int, size: nat, signed: bool, d: nat)
    requires CleanMem(m, d)
    ensures Clean(LoadBytes(env, m, r, at, size, signed), d)
  {
    var s := Bytes(m, r, at, size);
    if Whole(s) {
      assert s[0] == m(r, at + 0);
    }
  }

  lemma {:induction false} AluMatches(env: Env, ins: Insn, a: Aliases, regs: seq<Value>, d: nat)
    requires ins.op.Alu? && ins.dst != FP && Matches(a, regs, d) && Follows(ins, a)
    ensures Matches(After(ins, a), regs[ins.dst := AluValue(env, ins.op, ins.off, regs[ins.dst], Operand(ins, ins.op.fromReg, regs))], d)
  {
  }

  /** One instruction that neither jumps nor calls keeps the registers as the pass says. */
  ghost predicate Flows(o: Outcome, s: State, ins: Insn, a: Aliases, d: nat) {
    o.Running? ==>
      o.s.calls == s.calls && o.s.pc == s.pc + Width(ins) && CleanMem(o.s.mem, d) && Matches(After(ins, a), o.s.regs, d)
  }

  lemma {:induction false} RegisterStep(env: Env, L: Loaded, d: nat, quiet: int -> bool, s: State, ins: Insn, a: Aliases)
    requires Honest(env, d, quiet) && CleanMem(s.mem, d) && Matches(a, s.regs, d) && Follows(ins, a)
    requires ins.op.Alu? || ins.op.LoadImm64? || ins.op.LoadFunc? || ins.op.Load?
    ensures Flows(Exec(env, L, s, ins), s, ins, a, d)
  {
    match ins.op {
      case Alu(_, _, _) =>
        if ins.dst != FP {
          AluMatches(env, ins, a, s.regs, d);
        }
      case LoadImm64(_) =>
      case LoadFunc =>
      case Load(size, signed) =>
        var v := s.regs[ins.src];
        if v.Ptr? {
          LoadsClean(env, s.mem, v.region, v.off + ins.off, size, signed, d);
        }
    }
  }

  lemma {:induction false} StoresClean(m: Memory, r: Region, at: int, size: nat, v: Value, d: nat)
    requires CleanMem(m, d) && Clean(v, d)
    ensures CleanMem(StoreBytes(m, r, at, size, v), d)
  {
  }

  lemma {:induction false} StoreStep(env: Env, L: Loaded, d: nat, quiet: int -> bool, s: State, ins: Insn, a: Aliases)
    requires Honest(env, d, quiet) && CleanMem(s.mem, d) && Matches(a, s.regs, d) && Follows(ins, a)
    requires ins.op.StoreImm? || ins.op.Store? || ins.op.Atomic?
    ensures Flows(Exec(env, L, s, ins), s, ins, a, d)
  {
    var v := s.regs[ins.dst];
    if v.Ptr? {
      var at := v.off + ins.off;
      match ins.op {
        case StoreImm(size) => StoresClean(s.mem, v.region, at, size, Num(ins.imm), d);
        case Store(size) => StoresClean(s.mem, v.region, at, size, s.regs[ins.src], d);
        case Atomic(size, code, fetch) =>
          LoadsClean(env, s.mem, v.region, at, size, false, d);
          var was := LoadBytes(env, s.mem, v.region, at, size, false);
          assert Clean(s.regs[ins.src], d) && Clean(s.regs[0], d);
          StoresClean(s.mem, v.region, at, size, env.atomic(code, size, was, s.regs[ins.src], s.regs[0]), d);
      }
    }
  }

  lemma {:induction false} JumpStep(env: Env, L: Loaded, lo: nat, hi: nat, d: nat, s: State, i: nat)
    requires Contained(L.insns, lo, hi) && Exact(L.insns, lo, hi) && Inside(L.insns, lo, hi, d, s)
    requires i == IndexOf(L.insns, s.pc) && Follows(L.insns[i], AliasesAt(L.insns, lo, i)) && Liveness.IsJump(L.insns[i])
    ensures var o := Exec(env, L, s, L.insns[i]); o.Running? ==> o.s.mem == s.mem && Inside(L.insns, lo, hi, d, o.s)
  {
    var o := Exec(env, L, s, L.insns[i]);
    if o.Running? {
      LandsInside(L.insns, lo, hi, d, s, i, o.s.pc);
    }
  }

  lemma {:induction false} LandsInside(p: seq<Insn>, lo: nat, hi: nat, d: nat, s: State, i: nat, to: int)
    requires Contained(p, lo, hi) && Exact(p, lo, hi) && Inside(p, lo, hi, d, s) && i == IndexOf(p, s.pc)
    requires Follows(p[i], AliasesAt(p, lo, i)) && Liveness.IsJump(p[i])
    requires to == Target(p, s.pc, p[i]) || (p[i].op.Branch? && to == s.pc + 1)
    ensures Inside(p, lo, hi, d, s.(pc := to))
  {
    var a := AliasesAt(p, lo, i);
    assert !Live(a);
    if to == Target(p, s.pc, p[i]) {
      JumpLandsUnaliased(p, lo, hi, i);
      FramePointerKept(p, lo, hi, IndexOf(p, to));
      UnaliasedMatches(a, AliasesAt(p, lo, IndexOf(p, to)), s.regs, d);
    } else {
      Fall(p, lo, hi, i);
    }
  }

  /** Registers that alias nothing match wherever R10 is known. */
  lemma {:induction false} UnaliasedMatches(a: Aliases, b: Aliases, regs: seq<Value>, d: nat)
    requires Matches(a, regs, d) && !Live(a) && b[FP] == Stack(0)
    ensures Matches(b, regs, d)
  {
  }

  /** The pass never loses R10. */
  lemma {:induction false} FramePointerKept(p: seq<Insn>, lo: nat, hi: nat, i: nat)
    requires Contained(p, lo, hi) && lo <= i < hi
    ensures AliasesAt(p, lo, i)[FP] == Stack(0)
    decreases i
  {
    if i > lo {
      FramePointerKept(p, lo, hi, i - 1);
      assert ContainedAt(p, lo, hi, i - 1);
    }
  }

  // ---------------------------------------------------------------- calls

  predicate Calls(ins: Insn) {
    IsCall(ins) || ins.op.LoadLegacy?
  }

  lemma {:induction false} CallMatches(ins: Insn, a: Aliases, s: State, ret: int, resume: Resume, v: Value, d: nat)
    requires Matches(a, s.regs, d) && Follows(ins, a) && Calls(ins) && Clean(v, d)
    ensures Matches(After(ins, a), ReturnRegs(v, SaveFrame(s, ret, resume), d), d)
  {
  }

  lemma {:induction false} WaitsAfterCall(p: seq<Insn>, lo: nat, hi: nat, d: nat, quiet: int -> bool, s: State, i: nat, resume: Resume)
    requires Contained(p, lo, hi) && Inside(p, lo, hi, d, s) && i == IndexOf(p, s.pc) && Slot(p, i) == s.pc
    requires Calls(p[i]) && Follows(p[i], AliasesAt(p, lo, i)) && (resume.Token? ==> quiet(resume.k))
    ensures Waiting(p, lo, hi, d, quiet, SaveFrame(s, s.pc + 1, resume))
  {
    CallFalls(p, lo, hi, i);
    CallMatchesAll(p[i], AliasesAt(p, lo, i), AliasesAt(p, lo, i + 1), s, s.pc + 1, resume, d);
  }

  lemma {:induction false} CallFalls(p: seq<Insn>, lo: nat, hi: nat, i: nat)
    requires Contained(p, lo, hi) && lo <= i < hi && Calls(p[i])
    ensures IndexOf(p, Slot(p, i) + 1) == i + 1 && i + 1 < hi && AliasesAt(p, lo, i + 1) == After(p[i], AliasesAt(p, lo, i))
  {
    Fall(p, lo, hi, i);
  }

  lemma {:induction false} CallMatchesAll(ins: Insn, a: Aliases, a': Aliases, s: State, ret: int, resume: Resume, d: nat)
    requires Matches(a, s.regs, d) && Follows(ins, a) && Calls(ins) && a' == After(ins, a)
    ensures forall v: Value | Clean(v, d) :: Matches(a', ReturnRegs(v, SaveFrame(s, ret, resume), d), d)
  {
    forall v: Value | Clean(v, d)
      ensures Matches(a', ReturnRegs(v, SaveFrame(s, ret, resume), d), d)
    {
      CallMatches(ins, a, s, ret, resume, v, d);
    }
  }

  lemma {:induction false} ArgumentsForward(env: Env, ins: Insn, a: Aliases, regs: seq<Value>, d: nat)
    requires Matches(a, regs, d) && Follows(ins, a) && Calls(ins) && !ins.op.CallFunc?
    ensures ArgsForward(CallOut(env, ins, regs), d)
  {
    var call := CallOut(env, ins, regs);
    forall i | 0 <= i < |call.args|
      ensures ArgOk(call, i, d)
    {
      if !ins.op.LoadLegacy? {
        assert call.args[i] == regs[i + 1];
      }
    }
  }

  lemma {:induction false} CallbackBegins(L: Loaded, p: seq<Insn>, lo: nat, hi: nat, d: nat, quiet: int -> bool, c: Saved, calls: seq<Saved>, out: ExtOut, log: seq<ExtCall>)
    requires out.Invoke? && CleanOut(out, d, quiet)
    requires CallsOk(p, lo, hi, d, quiet, calls + [c.(resume := Token(out.token))])
    ensures var o := StartCallback(L, c, calls, out, log); o.Running? ==> CleanMem(o.s.mem, d) && Beyond(p, lo, hi, d, quiet, o.s)
  {
  }

  lemma {:induction false} ExternalStep(env: Env, L: Loaded, lo: nat, hi: nat, d: nat, quiet: int -> bool, s: State, i: nat)
    requires Contained(L.insns, lo, hi) && Honest(env, d, quiet) && CleanMem(s.mem, d) && Inside(L.insns, lo, hi, d, s)
    requires i == IndexOf(L.insns, s.pc) && Calls(L.insns[i]) && !L.insns[i].op.CallFunc?
    requires Follows(L.insns[i], AliasesAt(L.insns, lo, i)) && !Ends(env, L, s, d)
    ensures var o := External(env, L, s, L.insns[i]); o.Running? ==> Active(L.insns, lo, hi, d, quiet, o.s)
  {
    var ins, a := L.insns[i], AliasesAt(L.insns, lo, i);
    var call := CallOut(env, ins, s.regs);
    ArgumentsForward(env, ins, a, s.regs, d);
    var out := env.ext(call, s.mem);
    assert CleanOut(out, d, quiet);
    if out.Done? {
      WaitsAfterCall(L.insns, lo, hi, d, quiet, s, i, Plain);
      Resumed(L.insns, lo, hi, d, quiet, SaveFrame(s, s.pc + 1, Plain), out.r0, External(env, L, s, ins).s);
    } else {
      CallbackFirst(env, L, lo, hi, d, quiet, s, i, out);
    }
  }

  /** A waiting activation continues with a result that does not point into its frame. */
  lemma {:induction false} Resumed(p: seq<Insn>, lo: nat, hi: nat, d: nat, quiet: int -> bool, c: Saved, v: Value, s: State)
    requires Waiting(p, lo, hi, d, quiet, c) && Clean(v, d) && |s.calls| == d && s.pc == c.ret && s.regs == ReturnRegs(v, c, d)
    ensures Inside(p, lo, hi, d, s)
  {
  }

  lemma {:induction false} CallbackFirst(env: Env, L: Loaded, lo: nat, hi: nat, d: nat, quiet: int -> bool, s: State, i: nat, out: ExtOut)
    requires Contained(L.insns, lo, hi) && Inside(L.insns, lo, hi, d, s) && i == IndexOf(L.insns, s.pc)
    requires Calls(L.insns[i]) && Follows(L.insns[i], AliasesAt(L.insns, lo, i)) && out.Invoke? && CleanOut(out, d, quiet)
    ensures var o := StartCallback(L, SaveFrame(s, s.pc + 1, Plain), s.calls, out, s.log + [CallOut(env, L.insns[i], s.regs)]);
      o.Running? ==> Active(L.insns, lo, hi, d, quiet, o.s)
  {
    WaitsAfterCall(L.insns, lo, hi, d, quiet, s, i, Token(out.token));
    CallbackBegins(L, L.insns, lo, hi, d, quiet, SaveFrame(s, s.pc + 1, Plain), s.calls, out, s.log + [CallOut(env, L.insns[i], s.regs)]);
  }

  lemma {:induction false} FunctionStep(env: Env, L: Loaded, lo: nat, hi: nat, d: nat, quiet: int -> bool, s: State, i: nat)
    requires Contained(L.insns, lo, hi) && CleanMem(s.mem, d) && Inside(L.insns, lo, hi, d, s)
    requires i == IndexOf(L.insns, s.pc) && L.insns[i].op.CallFunc? && Follows(L.insns[i], AliasesAt(L.insns, lo, i))
    ensures var o := EnterFunc(L, s, L.insns[i]); Active(L.insns, lo, hi, d, quiet, o.s)
  {
    WaitsAfterCall(L.insns, lo, hi, d, quiet, s, i, Plain);
    var o := EnterFunc(L, s, L.insns[i]);
    assert AllClean(o.s.regs, d);
  }

  lemma {:induction false} InsideStep(env: Env, L: Loaded, lo: nat, hi: nat, d: nat, quiet: int -> bool, s: State)
    requires Contained(L.insns, lo, hi) && Exact(L.insns, lo, hi) && Honest(env, d, quiet)
    requires CleanMem(s.mem, d) && Inside(L.insns, lo, hi, d, s) && !Ends(env, L, s, d)
    ensures var o := Step(env, L, s); o.Running? ==> Active(L.insns, lo, hi, d, quiet, o.s)
  {
    var i := IndexOf(L.insns, s.pc);
    var ins, a := L.insns[i], AliasesAt(L.insns, lo, i);
    assert FollowsAt(L.insns, lo, hi, i);
    if Liveness.IsJump(ins) {
      JumpStep(env, L, lo, hi, d, s, i);
    } else if ins.op.CallFunc? {
      FunctionStep(env, L, lo, hi, d, quiet, s, i);
    } else if Calls(ins) {
      ExternalStep(env, L, lo, hi, d, quiet, s, i);
    } else {
      PlainStep(env, L, lo, hi, d, quiet, s, i);
    }
  }

  lemma {:induction false} PlainStep(env: Env, L: Loaded, lo: nat, hi: nat, d: nat, quiet: int -> bool, s: State, i: nat)
    requires Contained(L.insns, lo, hi) && Honest(env, d, quiet) && CleanMem(s.mem, d) && Inside(L.insns, lo, hi, d, s)
    requires i == IndexOf(L.insns, s.pc) && Follows(L.insns[i], AliasesAt(L.insns, lo, i))
    requires !Liveness.IsJump(L.insns[i]) && !Calls(L.insns[i]) && !L.insns[i].op.Exit?
    ensures var o := Exec(env, L, s, L.insns[i]); o.Running? ==> CleanMem(o.s.mem, d) && Inside(L.insns, lo, hi, d, o.s)
  {
    PlainFlows(env, L, d, quiet, s, L.insns[i], AliasesAt(L.insns, lo, i));
    Fall(L.insns, lo, hi, i);
    FlowsInside(L.insns, lo, hi, d, s, i, Exec(env, L, s, L.insns[i]));
  }

  lemma {:induction false} PlainFlows(env: Env, L: Loaded, d: nat, quiet: int -> bool, s: State, ins: Insn, a: Aliases)
    requires Honest(env, d, quiet) && CleanMem(s.mem, d) && Matches(a, s.regs, d) && Follows(ins, a)
    requires !Liveness.IsJump(ins) && !Calls(ins) && !ins.op.Exit?
    ensures Flows(Exec(env, L, s, ins), s, ins, a, d)
  {
    if ins.op.StoreImm? || ins.op.Store? || ins.op.Atomic? {
      StoreStep(env, L, d, quiet, s, ins, a);
    } else {
      RegisterStep(env, L, d, quiet, s, ins, a);
    }
  }

  lemma {:induction false} FlowsInside(p: seq<Insn>, lo: nat, hi: nat, d: nat, s: State, i: nat, o: Outcome)
    requires lo <= i && i + 1 < hi <= |p| && |s.calls| == d && s.pc == Slot(p, i) && |s.regs| == 11
    requires Flows(o, s, p[i], AliasesAt(p, lo, i), d)
    requires IndexOf(p, Slot(p, i) + Width(p[i])) == i + 1 && AliasesAt(p, lo, i + 1) == After(p[i], AliasesAt(p, lo, i))
    ensures o.Running? ==> CleanMem(o.s.mem, d) && Inside(p, lo, hi, d, o.s)
  {
  }

  // ---------------------------------------------------------------- below a call

  lemma {:induction false} ReturnStep(env: Env, L: Loaded, lo: nat, hi: nat, d: nat, quiet: int -> bool, calls: seq<Saved>, r0: Value, mem: Memory, log: seq<ExtCall>)
    requires Honest(env, d, quiet) && CleanMem(mem, d) && Clean(r0, d) && CallsOk(L.insns, lo, hi, d, quiet, calls)
    ensures var o := Return(env, L, calls, r0, mem, log); o.Running? ==> Active(L.insns, lo, hi, d, quiet, o.s)
  {
    var c, rest := calls[|calls| - 1], calls[..|calls| - 1];
    if c.resume.Plain? {
      Continues(L.insns, lo, hi, d, quiet, calls, r0);
    } else {
      var out := env.resume(c.resume.k, r0, mem);
      assert CleanOut(out, d, quiet);
      if out.Done? {
        Continues(L.insns, lo, hi, d, quiet, calls, out.r0);
      } else if out.Invoke? {
        Requeued(L.insns, lo, hi, d, quiet, calls, out.token);
        CallbackBegins(L, L.insns, lo, hi, d, quiet, c, rest, out, log);
      }
    }
  }

  /** The registers a return restores. */
  lemma {:induction false} Continues(p: seq<Insn>, lo: nat, hi: nat, d: nat, quiet: int -> bool, calls: seq<Saved>, v: Value)
    requires CallsOk(p, lo, hi, d, quiet, calls) && Clean(v, d)
    ensures var c, n := calls[|calls| - 1], |calls| - 1;
      if n == d then lo <= IndexOf(p, c.ret) < hi && Matches(AliasesAt(p, lo, IndexOf(p, c.ret)), ReturnRegs(v, c, d), d)
      else AllClean(ReturnRegs(v, c, n), d) && CallsOk(p, lo, hi, d, quiet, calls[..n])
  {
    var n := |calls| - 1;
    if n > d {
      assert CleanSaved(calls[n], d, quiet);
    }
  }

  lemma {:induction false} Requeued(p: seq<Insn>, lo: nat, hi: nat, d: nat, quiet: int -> bool, calls: seq<Saved>, token: int)
    requires CallsOk(p, lo, hi, d, quiet, calls) && quiet(token)
    ensures var c, n := calls[|calls| - 1], |calls| - 1;
      CallsOk(p, lo, hi, d, quiet, calls[..n] + [c.(resume := Token(token))])
  {
    var c, n := calls[|calls| - 1], |calls| - 1;
    var c' := c.(resume := Token(token));
    var calls' := calls[..n] + [c'];
    if n == d {
      assert Waiting(p, lo, hi, d, quiet, c);
      forall v: Value | Clean(v, d)
        ensures Matches(AliasesAt(p, lo, IndexOf(p, c'.ret)), ReturnRegs(v, c', d), d)
      {
        assert ReturnRegs(v, c', d) == ReturnRegs(v, c, d);
      }
    } else {
      assert CleanSaved(c, d, quiet);
    }
  }

  lemma {:induction false} BeyondCall(env: Env, L: Loaded, lo: nat, hi: nat, d: nat, quiet: int -> bool, s: State, ins: Insn)
    requires Honest(env, d, quiet) && CleanMem(s.mem, d) && Beyond(L.insns, lo, hi, d, quiet, s)
    requires Calls(ins) && !ins.op.CallFunc?
    ensures var o := External(env, L, s, ins); o.Running? ==> Active(L.insns, lo, hi, d, quiet, o.s)
  {
    var call := CallOut(env, ins, s.regs);
    assert ArgsForward(call, d);
    var out := env.ext(call, s.mem);
    assert CleanOut(out, d, quiet);
    var c, log := SaveFrame(s, s.pc + 1, Plain), s.log + [call];
    match out {
      case Done(_, _) =>
      case Leave(r0, m) => ReturnStep(env, L, lo, hi, d, quiet, s.calls, r0, m, log);
      case Invoke(_, _, _, token) =>
        Pushed(L.insns, lo, hi, d, quiet, s.calls, c.(resume := Token(token)));
        CallbackBegins(L, L.insns, lo, hi, d, quiet, c, s.calls, out, log);
    }
  }

  lemma {:induction false} Pushed(p: seq<Insn>, lo: nat, hi: nat, d: nat, quiet: int -> bool, calls: seq<Saved>, c: Saved)
    requires CallsOk(p, lo, hi, d, quiet, calls) && CleanSaved(c, d, quiet)
    ensures CallsOk(p, lo, hi, d, quiet, calls + [c])
  {
  }

  lemma {:induction false} BeyondPlain(env: Env, L: Loaded, d: nat, quiet: int -> bool, s: State, ins: Insn)
    requires Honest(env, d, quiet) && CleanMem(s.mem, d) && WellFormed(s) && AllClean(s.regs, d)
    requires !Calls(ins) && !ins.op.Exit?
    ensures var o := Exec(env, L, s, ins);
      o.Running? ==> o.s.calls == s.calls && WellFormed(o.s) && AllClean(o.s.regs, d) && CleanMem(o.s.mem, d)
  {
    match ins.op {
      case Load(size, signed) =>
        var v := s.regs[ins.src];
        if v.Ptr? { LoadsClean(env, s.mem, v.region, v.off + ins.off, size, signed, d); }
      case StoreImm(size) =>
        var v := s.regs[ins.dst];
        if v.Ptr? { StoresClean(s.mem, v.region, v.off + ins.off, size, Num(ins.imm), d); }
      case Store(size) =>
        var v := s.regs[ins.dst];
        if v.Ptr? { StoresClean(s.mem, v.region, v.off + ins.off, size, s.regs[ins.src], d); }
      case Atomic(size, code, fetch) =>
        var v := s.regs[ins.dst];
        if v.Ptr? {
          LoadsClean(env, s.mem, v.region, v.off + ins.off, size, false, d);
          var was := LoadBytes(env, s.mem, v.region, v.off + ins.off, size, false);
          StoresClean(s.mem, v.region, v.off + ins.off, size, env.atomic(code, size, was, s.regs[ins.src], s.regs[0]), d);
        }
      case Alu(_, _, _) =>
      case LoadImm64(_) =>
      case LoadFunc =>
      case Goto =>
      case GotoLong =>
      case GotoIndirect =>
      case Branch(_, _, _) =>
    }
  }

  lemma {:induction false} BeyondEnters(env: Env, L: Loaded, lo: nat, hi: nat, d: nat, quiet: int -> bool, s: State, ins: Insn)
    requires CleanMem(s.mem, d) && Beyond(L.insns, lo, hi, d, quiet, s)
    ensures Active(L.insns, lo, hi, d, quiet, EnterFunc(L, s, ins).s)
  {
    Pushed(L.insns, lo, hi, d, quiet, s.calls, SaveFrame(s, s.pc + 1, Plain));
  }

  lemma {:induction false} BeyondExec(env: Env, L: Loaded, lo: nat, hi: nat, d: nat, quiet: int -> bool, s: State, ins: Insn)
    requires Honest(env, d, quiet) && CleanMem(s.mem, d) && Beyond(L.insns, lo, hi, d, quiet, s)
    ensures var o := Exec(env, L, s, ins); o.Running? ==> Active(L.insns, lo, hi, d, quiet, o.s)
  {
    if ins.op.CallFunc? {
      BeyondEnters(env, L, lo, hi, d, quiet, s, ins);
    } else if Calls(ins) {
      BeyondCall(env, L, lo, hi, d, quiet, s, ins);
    } else if ins.op.Exit? {
      ReturnStep(env, L, lo, hi, d, quiet, s.calls, s.regs[0], s.mem, s.log);
    } else {
      BeyondPlain(env, L, d, quiet, s, ins);
    }
  }

  lemma {:induction false} BeyondStep(env: Env, L: Loaded, lo: nat, hi: nat, d: nat, quiet: int -> bool, s: State)
    requires Honest(env, d, quiet) && CleanMem(s.mem, d) && Beyond(L.insns, lo, hi, d, quiet, s)
    ensures var o := Step(env, L, s); o.Running? ==> Active(L.insns, lo, hi, d, quiet, o.s)
  {
    var i := IndexOf(L.insns, s.pc);
    if i >= 0 {
      BeyondExec(env, L, lo, hi, d, quiet, s, L.insns[i]);
    }
  }

  // ---------------------------------------------------------------- the theorem

  lemma {:induction false} ActiveIsWithin(env: Env, L: Loaded, lo: nat, hi: nat, d: nat, quiet: int -> bool, s: State, depth: nat)
    requires Contained(L.insns, lo, hi) && Exact(L.insns, lo, hi) && Active(L.insns, lo, hi, d, quiet, s)
    requires forall i | lo <= i < hi :: BoundedAt(L.insns, lo, i, depth)
    ensures StepWithin(env, L, s, d, depth)
  {
    var i := IndexOf(L.insns, s.pc);
    if |s.calls| == d {
      assert FollowsAt(L.insns, lo, hi, i) && BoundedAt(L.insns, lo, i, depth);
      InsideIsWithin(env, L.insns[i], AliasesAt(L.insns, lo, i), s.regs, d, depth);
    }
  }

  lemma {:induction false} InsideIsWithin(env: Env, ins: Insn, a: Aliases, regs: seq<Value>, d: nat, depth: nat)
    requires Matches(a, regs, d) && Follows(ins, a) && Bounded(ins, a, depth)
    ensures ins.op.Load? ==> High(regs[ins.src], d, ins.off, depth)
    ensures ins.op.StoreImm? || ins.op.Store? || ins.op.Atomic? ==> High(regs[ins.dst], d, ins.off, depth)
    ensures Calls(ins) && !ins.op.CallFunc? ==> AllHigh(CallOut(env, ins, regs).args, d, depth)
  {
    if Calls(ins) && !ins.op.CallFunc? {
      var args := CallOut(env, ins, regs).args;
      forall i | 0 <= i < |args|
        ensures High(args[i], d, 0, depth)
      {
        if !ins.op.LoadLegacy? {
          assert args[i] == regs[i + 1];
        }
      }
    }
  }

  /** A stretch of one activation of frame `d`, callees and callbacks included. */
  ghost predicate Activation(env: Env, L: Loaded, d: nat, run: seq<State>) {
    run != [] && forall k | 0 <= k < |run| - 1 :: !Ends(env, L, run[k], d) && Step(env, L, run[k]) == Running(run[k + 1])
  }

  /** The new frame and those beyond it, whose bytes are left over from earlier activations. */
  predicate Stale(r: Region, d: nat) {
    r.Frame? && r.depth >= d
  }

  /** Control enters the function at `lo`; no argument and nothing live points into the frame it is given, whatever
      earlier activations left in it. */
  ghost predicate Entered(p: seq<Insn>, lo: nat, d: nat, s: State) {
    lo < |p| && s.pc == Slot(p, lo) && |s.calls| == d && WellFormed(s) && AllClean(s.regs[..10], d) &&
    forall r: Region, o: int | !Stale(r, d) :: Clean(s.mem(r, o).v, d)
  }

  /** An activation starts in the state it was entered in, except that left-over bytes are data to it. */
  ghost predicate Begins(s: State, s': State, d: nat) {
    s' == s.(mem := s'.mem) &&
    forall r: Region, o: int :: if Stale(r, d) then Clean(s'.mem(r, o).v, d) else s'.mem(r, o) == s.mem(r, o)
  }

  lemma {:induction false} BeginsClean(p: seq<Insn>, lo: nat, d: nat, s: State, s': State)
    requires Entered(p, lo, d, s) && Begins(s, s', d)
    ensures CleanMem(s'.mem, d)
  {
    forall r: Region, o: int
      ensures Clean(s'.mem(r, o).v, d)
    {
      if !Stale(r, d) {
        assert s'.mem(r, o) == s.mem(r, o) && Clean(s.mem(r, o).v, d);
      }
    }
  }

  lemma {:induction false} ActivationStaysActive(env: Env, L: Loaded, lo: nat, hi: nat, d: nat, quiet: int -> bool, s: State, run: seq<State>, k: nat)
    requires Contained(L.insns, lo, hi) && Exact(L.insns, lo, hi) && Honest(env, d, quiet)
    requires Activation(env, L, d, run) && Entered(L.insns, lo, d, s) && Begins(s, run[0], d) && k < |run|
    ensures Active(L.insns, lo, hi, d, quiet, run[k])
    decreases k
  {
    if k == 0 {
      IndexOfSlot(L.insns, lo);
      var regs := run[0].regs;
      assert forall r | 0 <= r < 10 :: regs[r] == regs[..10][r];
      BeginsClean(L.insns, lo, d, s, run[0]);
    } else {
      ActivationStaysActive(env, L, lo, hi, d, quiet, s, run, k - 1);
      assert Step(env, L, run[k - 1]) == Running(run[k - 1 + 1]);
      if |run[k - 1].calls| == d {
        InsideStep(env, L, lo, hi, d, quiet, run[k - 1]);
      } else {
        BeyondStep(env, L, lo, hi, d, quiet, run[k - 1]);
      }
    }
  }

  /** When the pass reports exact, no execution of the function touches its frame below the reported depth:
      not directly, not through an alias, not through a helper argument, on any path, while any callee or
      callback runs. */
  lemma {:induction false} ExactDepthIsSound(env: Env, L: Loaded, lo: nat, hi: nat, d: nat, quiet: int -> bool, s: State, run: seq<State>, depth: nat)
    requires Contained(L.insns, lo, hi) && Exact(L.insns, lo, hi) && Honest(env, d, quiet)
    requires forall i | lo <= i < hi :: BoundedAt(L.insns, lo, i, depth)
    requires Activation(env, L, d, run) && Entered(L.insns, lo, d, s) && Begins(s, run[0], d)
    ensures forall k | 0 <= k < |run| :: StepWithin(env, L, run[k], d, depth) && CleanMem(run[k].mem, d)
  {
    forall k | 0 <= k < |run|
      ensures StepWithin(env, L, run[k], d, depth) && CleanMem(run[k].mem, d)
    {
      ActivationStaysActive(env, L, lo, hi, d, quiet, s, run, k);
      ActiveIsWithin(env, L, lo, hi, d, quiet, run[k], depth);
    }
  }
}
