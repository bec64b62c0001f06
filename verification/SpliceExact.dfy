/** What the rewriter accepts, said without its own tests: the site's next instruction forgets R1 whatever it held,
    and every reference still fits once the code after the site has moved. */
module SpliceExact {
  import opened Machine
  import opened Agreement
  import opened Splice
  import Liveness

  // ---------------------------------------------------------------- the instruction after the site

  /** Whatever R1 held before `ins`, nothing is left of it afterwards. */
  ghost predicate Forgets(ins: Insn) {
    forall env: Env, L: Loaded, s: State, t: State | Twin(s, t, {1}) :: ForgetsOn(env, L, ins, s, t)
  }

  ghost predicate ForgetsOn(env: Env, L: Loaded, ins: Insn, s: State, t: State)
    requires |s.regs| == |t.regs| == 11
  {
    TwinOutcome(Exec(env, L, s, ins), Exec(env, L, t, ins), {})
  }

  predicate WritesOneRegister(ins: Insn) {
    ins.op.Alu? || ins.op.LoadImm64? || ins.op.LoadFunc? || ins.op.Load?
  }

  /** States that differ in R1 alone. */
  ghost function Witness(v: Value, u: Value): State {
    State(0, [u, v, u, u, u, u, u, u, u, u, FramePtr(0)], (_, _) => Frag(Num(0), 0), [], [])
  }

  /** A machine whose unmodelled arithmetic tells which operands are pointers. */
  function Telling(): Env {
    Env((_, _, _, a: Value, b: Value) => (if a.Ptr? then 1 else 0) + (if b.Ptr? then 2 else 0), (_, _) => 0, (_, _, _, _) => false, (_, _, _, _, _) => Num(0),
        (_, _, _) => Num(0), _ => 5, (_, m: Memory) => Done(Num(0), m), (_, _, m: Memory) => Done(Num(0), m))
  }

  lemma {:induction false} CleanForgets(ins: Insn)
    requires WritesOneRegister(ins) && 1 in Defs(ins) && 1 !in Uses(5, ins)
    ensures Forgets(ins)
  {
    forall env: Env, L: Loaded, s: State, t: State | Twin(s, t, {1})
      ensures ForgetsOn(env, L, ins, s, t)
    {
      RegisterTwins(env, L, s, t, ins, {1});
      assert {1} - Defs(ins) == {};
    }
  }

  lemma {:induction false} LoadRemembers(ins: Insn)
    requires ins.op.Load? && ins.dst != FP && (ins.dst != 1 || ins.src == 1)
    ensures !Forgets(ins)
  {
    var env, L := Telling(), Loaded([], a => a, a => a);
    var s, t := Witness(Num(0), Ptr(Context, 0)), Witness(Ptr(Context, 0), Ptr(Context, 0));
    assert Twin(s, t, {1});
    assert !ForgetsOn(env, L, ins, s, t) by {
      if ins.src != 1 {
        assert Exec(env, L, s, ins).s.regs[1] == Num(0) && Exec(env, L, t, ins).s.regs[1] == Ptr(Context, 0);
      }
    }
  }

  lemma {:induction false} ConstantRemembers(ins: Insn)
    requires (ins.op.LoadImm64? || ins.op.LoadFunc?) && ins.dst != FP && ins.dst != 1
    ensures !Forgets(ins)
  {
    var env, L := Telling(), Loaded([], a => a, a => a);
    var s, t := Witness(Num(0), Num(0)), Witness(Ptr(Context, 0), Num(0));
    assert Twin(s, t, {1});
    assert !ForgetsOn(env, L, ins, s, t) by {
      assert Exec(env, L, s, ins).s.regs[1] == Num(0) && Exec(env, L, t, ins).s.regs[1] == Ptr(Context, 0);
    }
  }

  lemma {:induction false} AluRemembers(ins: Insn)
    requires ins.op.Alu? && ins.dst != FP && (1 !in Defs(ins) || 1 in Uses(5, ins))
    ensures !Forgets(ins)
  {
    var env, L := Telling(), Loaded([], a => a, a => a);
    var s, t := Witness(Num(0), Num(0)), Witness(Ptr(Context, 0), Num(0));
    assert Twin(s, t, {1});
    if ins.dst == 1 {
      AluTells(ins, s.regs, t.regs);
    }
    assert !ForgetsOn(env, L, ins, s, t) by {
      assert Exec(env, L, s, ins).s.regs[1] != Exec(env, L, t, ins).s.regs[1];
    }
  }

  lemma {:induction false} AluTells(ins: Insn, a: seq<Value>, b: seq<Value>)
    requires ins.op.Alu? && |a| == |b| == 11 && a == Witness(Num(0), Num(0)).regs && b == Witness(Ptr(Context, 0), Num(0)).regs
    requires ins.dst == 1 && 1 in Uses(5, ins)
    ensures AluValue(Telling(), ins.op, ins.off, a[1], Operand(ins, ins.op.fromReg, a)) !=
      AluValue(Telling(), ins.op, ins.off, b[1], Operand(ins, ins.op.fromReg, b))
  {
  }

  /** An instruction that writes one register, never R10, after which R1 is as if it had never been touched. */
  ghost predicate CleanlyForgets(ins: Insn) {
    WritesOneRegister(ins) && ins.dst != FP && Forgets(ins)
  }

  /** The shape test on the next instruction passes exactly those. */
  lemma {:induction false} NextForgets(ins: Insn)
    ensures RedefinesSiteReg(ins) <==> CleanlyForgets(ins)
  {
    if WritesOneRegister(ins) && ins.dst != FP {
      if 1 in Defs(ins) && 1 !in Uses(5, ins) {
        CleanForgets(ins);
      } else if ins.op.Load? {
        LoadRemembers(ins);
      } else if ins.op.Alu? {
        AluRemembers(ins);
      } else {
        ConstantRemembers(ins);
      }
    }
  }

  // ---------------------------------------------------------------- what is accepted

  function Shifted(site: int, pc: int): int {
    if pc > site then pc + 6 else pc
  }

  ghost predicate OneSymbol(p: seq<Insn>, name: string) {
    exists j :: OnlyAt(p, name, |p|, j)
  }

  ghost predicate Boundary(p: seq<Insn>, pc: int) {
    exists j | 0 <= j < |p| :: Slot(p, j) == pc
  }

  ghost predicate FunctionStart(p: seq<Insn>, pc: int) {
    exists j | 0 < j < |p| :: Slot(p, j) == pc && !p[j].fn.NotAFunction?
  }

  /** The distance a relative reference from `pc` to `t` has after the rewrite. */
  function Distance(site: int, pc: int, t: int): int {
    Shifted(site, t) - Shifted(site, pc) - 1
  }

  /** Whether the reference of instruction `i`, if it has one, can be carried over: calls and callback loads by symbol
      or by a 32-bit distance, branches by a 16-bit one, to an instruction boundary. */
  ghost predicate Carried(p: seq<Insn>, site: int, i: nat)
    requires i < |p|
  {
    var ins, pc := p[i], Slot(p, i);
    var t := Target(p, pc, ins);
    match ins.op
    case LoadFunc =>
      ins.off == 0 && -0x8000_0000 <= ins.imm < 0x8000_0000 && FunctionStart(p, t) &&
      if ins.ref != "" then ins.imm == -1 && OneSymbol(p, ins.ref) else -0x8000_0000 <= Distance(site, pc, t) < 0x8000_0000
    case CallFunc =>
      if ins.ref != "" then ins.imm == -1 else Boundary(p, t) && -0x8000_0000 <= Distance(site, pc, t) < 0x8000_0000
    case Goto => ins.ref == "" && Boundary(p, t) && -0x8000 <= Distance(site, pc, t) < 0x8000
    case Branch(_, _, _) => ins.ref == "" && Boundary(p, t) && -0x8000 <= Distance(site, pc, t) < 0x8000
    case GotoLong => false
    case GotoIndirect => false
    case _ => ins.ref == "" || ins.op == LoadImm64(true)
  }

  ghost predicate OnlyAt(p: seq<Insn>, name: string, n: int, j: int) {
    0 <= j < n <= |p| && p[j].sym == name && forall k | 0 <= k < n && k != j :: p[k].sym != name
  }

  lemma {:induction false} CountsNone(p: seq<Insn>, name: string, n: nat)
    requires n <= |p|
    ensures Liveness.CountSym(p, name, n) == 0 <==> forall j | 0 <= j < n :: p[j].sym != name
    decreases n
  {
    if n > 0 {
      CountsNone(p, name, n - 1);
    }
  }

  lemma {:induction false} CountsOne(p: seq<Insn>, name: string, n: nat)
    requires n <= |p|
    ensures Liveness.CountSym(p, name, n) == 1 <==> exists j :: OnlyAt(p, name, n, j)
    decreases n
  {
    if n > 0 {
      var m := n - 1;
      CountsNone(p, name, m);
      CountsOne(p, name, m);
      if p[m].sym == name {
        if Liveness.CountSym(p, name, m) == 0 {
          assert OnlyAt(p, name, n, m);
        }
      } else if j :| OnlyAt(p, name, m, j) {
        assert OnlyAt(p, name, n, j);
      }
      if j :| OnlyAt(p, name, n, j) {
        if j < m {
          assert OnlyAt(p, name, m, j);
        }
      }
    }
  }

  lemma {:induction false} BoundaryIsIndex(p: seq<Insn>, pc: int)
    ensures Boundary(p, pc) <==> IndexOf(p, pc) >= 0
    ensures FunctionStart(p, pc) <==> IndexOf(p, pc) >= 0 && pc != 0 && !p[IndexOf(p, pc)].fn.NotAFunction?
  {
    if FunctionStart(p, pc) {
      var j :| 0 < j < |p| && Slot(p, j) == pc && !p[j].fn.NotAFunction?;
      IndexOfSlot(p, j);
    }
  }

  lemma {:induction false} FitsExactly(ins: Insn, site: int, pc: int, t: int, isFunc: bool)
    ensures RelocateOffset(ins, Mapped(site, pc), Mapped(site, t), isFunc).Ok? <==>
      if isFunc then -0x8000_0000 <= Distance(site, pc, t) < 0x8000_0000 else -0x8000 <= Distance(site, pc, t) < 0x8000
  {
  }

  lemma {:induction false} CallbackCarried(p: seq<Insn>, site: int, i: nat)
    requires i < |p| && p[i].op.LoadFunc?
    ensures Relocated(p, site, i).Ok? <==> Carried(p, site, i)
  {
    var ins, pc := p[i], Slot(p, i);
    BoundaryIsIndex(p, Target(p, pc, ins));
    CountsOne(p, ins.ref, |p|);
    FitsExactly(ins, site, pc, Target(p, pc, ins), true);
  }

  lemma {:induction false} CallCarried(p: seq<Insn>, site: int, i: nat)
    requires i < |p| && p[i].op.CallFunc?
    ensures Relocated(p, site, i).Ok? <==> Carried(p, site, i)
  {
    var ins, pc := p[i], Slot(p, i);
    BoundaryIsIndex(p, Target(p, pc, ins));
    FitsExactly(ins, site, pc, Target(p, pc, ins), true);
  }

  lemma {:induction false} BranchCarried(p: seq<Insn>, site: int, i: nat)
    requires i < |p| && (p[i].op.Goto? || p[i].op.Branch?)
    ensures Relocated(p, site, i).Ok? <==> Carried(p, site, i)
  {
    var ins, pc := p[i], Slot(p, i);
    BoundaryIsIndex(p, Target(p, pc, ins));
    FitsExactly(ins, site, pc, Target(p, pc, ins), false);
  }

  /** A reference is refused exactly when it cannot be carried. */
  lemma {:induction false} CarriedExactly(p: seq<Insn>, site: int, i: nat)
    requires i < |p|
    ensures Relocated(p, site, i).Ok? <==> Carried(p, site, i)
  {
    if p[i].op.LoadFunc? {
      CallbackCarried(p, site, i);
    } else if p[i].op.CallFunc? {
      CallCarried(p, site, i);
    } else if p[i].op.Goto? || p[i].op.Branch? {
      BranchCarried(p, site, i);
    }
  }

  /** The offline checker's edges: what it resolves, and to which instruction. */
  lemma {:induction false} EdgeExactly(p: seq<Insn>, i: nat)
    requires i < |p|
    ensures var ins := p[i];
      Liveness.Edge(p, i).Ok? <==>
        if ins.ref != "" then (if ins.op.CallFunc? || ins.op.LoadFunc? then ins.imm == -1 else ins.off == -1) && OneSymbol(p, ins.ref)
        else Boundary(p, Target(p, Slot(p, i), ins))
    ensures Liveness.Edge(p, i).Ok? ==> Slot(p, Liveness.Edge(p, i).value) == Target(p, Slot(p, i), p[i])
  {
    CountsOne(p, p[i].ref, |p|);
    CountsNone(p, p[i].ref, |p|);
    BoundaryIsIndex(p, Target(p, Slot(p, i), p[i]));
  }

  ghost predicate SiteAt(p: seq<Insn>, j: int, site: int, off: int) {
    0 <= j < |p| - 1 && Slot(p, j) == site &&
    p[j].op == Load(4, false) && p[j].dst == 2 && p[j].src == 0 && p[j].off == off && p[j].imm == 0 && CleanlyForgets(p[j + 1])
  }

  /** The site is a load of a u32 through R0 into R2, followed by an instruction after which R1 is forgotten. */
  ghost predicate AuditedSite(p: seq<Insn>, site: int, off: int) {
    exists j :: SiteAt(p, j, site, off)
  }

  lemma {:induction false} SiteExactly(p: seq<Insn>, req: Request)
    requires req.ptr == 0
    ensures SiteOk(p, req) <==> AuditedSite(p, req.site, req.off)
  {
    var idx := IndexOf(p, req.site);
    if 0 <= idx && idx + 1 < |p| {
      SiteHere(p, req, idx);
    }
    if j :| SiteAt(p, j, req.site, req.off) {
      IndexOfSlot(p, j);
    }
  }

  lemma {:induction false} SiteHere(p: seq<Insn>, req: Request, idx: nat)
    requires req.ptr == 0 && idx + 1 < |p| && Slot(p, idx) == req.site
    ensures ShapeOk(p[idx], p[idx + 1], req) <==> SiteAt(p, idx, req.site, req.off)
  {
    NextForgets(p[idx + 1]);
  }

  /** The hook's name is new, nothing refers to it, and what the program refers to exists. */
  ghost predicate NamesOk(p: seq<Insn>, hook: string, maps: set<string>) {
    hook != "" && forall i | 0 <= i < |p| :: NamedOk(p, i, hook, maps)
  }

  ghost predicate NamedOk(p: seq<Insn>, i: nat, hook: string, maps: set<string>)
    requires i < |p|
  {
    p[i].sym != hook && p[i].ref != hook &&
    (p[i].ref != "" && (p[i].op.CallFunc? || p[i].op.LoadFunc?) ==> OneSymbol(p, p[i].ref)) &&
    (p[i].ref != "" && p[i].op == LoadImm64(true) ==> p[i].ref in maps)
  }

  lemma {:induction false} NamesExactly(p: seq<Insn>, hook: string, maps: set<string>)
    ensures NamesOk(p, hook, maps) <==> NoCollision(p, hook) && ReferencesOk(p, hook, maps)
  {
    forall i | 0 <= i < |p|
      ensures Liveness.CountSym(p, p[i].ref, |p|) == 1 <==> OneSymbol(p, p[i].ref)
    {
      CountsOne(p, p[i].ref, |p|);
    }
    if NoCollision(p, hook) && ReferencesOk(p, hook, maps) {
      forall i | 0 <= i < |p|
        ensures NamedOk(p, i, hook, maps)
      {
        assert p[i].ref != "" ==> p[i].ref != hook;
      }
    }
    if NamesOk(p, hook, maps) {
      forall i | 0 <= i < |p|
        ensures p[i].sym != hook && p[i].ref != hook
        ensures p[i].ref != "" && Liveness.IsFuncRef(p[i]) ==> Liveness.CountSym(p, p[i].ref, |p|) == 1
        ensures p[i].ref != "" && p[i].op == LoadImm64(true) ==> p[i].ref in maps
      {
        assert NamedOk(p, i, hook, maps);
      }
    }
  }

  /** What the rewriter accepts: a u32 load at the site, no direct use of the stack below the audited bound and room for
      two slots below it, names in order, and references that can be carried. */
  lemma {:induction false} AcceptsExactly(p: seq<Insn>, req: Request, maps: set<string>)
    ensures Accepts(p, req, maps) <==>
      req.ptr == 0 && req.site < 0x1_0000_0000 && -496 <= req.lowest <= 0 && NamesOk(p, req.hook, maps) &&
      (forall i | 0 <= i < |p| && (p[i].dst == FP || p[i].src == FP) :: req.lowest <= p[i].off) &&
      AuditedSite(p, req.site, req.off) && forall i | 0 <= i < |p| :: Carried(p, req.site, i)
  {
    NamesExactly(p, req.hook, maps);
    if req.ptr == 0 {
      SiteExactly(p, req);
    }
    forall i | 0 <= i < |p|
      ensures Relocated(p, req.site, i).Ok? <==> Carried(p, req.site, i)
    {
      CarriedExactly(p, req.site, i);
    }
  }

  // ---------------------------------------------------------------- what is inserted

  /** The site number as a 32-bit constant: the same low bits, in range. */
  lemma {:induction false} SiteFitsConstant(n: nat)
    requires n < 0x1_0000_0000
    ensures -0x8000_0000 <= AsInt32(n) < 0x8000_0000 && Low32(AsInt32(n)) == n
  {
  }

  /** The generated hook: its result is its two arguments combined by exclusive or, and it touches nothing else. */
  lemma {:induction false} HookCombines(req: Request, env: Env, L: Loaded, s: State, site: int)
    requires |s.regs| == 11 && s.regs[1] == Num(site) && 0 <= site < 0x1_0000_0000 && Hook(req)[0].sym == req.hook
    ensures var s1 := Exec(env, L, s, Hook(req)[0]);
      s1.Running? &&
      var s2 := Exec(env, L, s1.s, Hook(req)[1]);
      s2.Running? && s2.s.mem == s.mem && s2.s.calls == s.calls && s2.s.pc == s.pc + 2 && (forall r | 1 <= r <= 10 :: s2.s.regs[r] == s.regs[r]) &&
      s2.s.regs[0] == Num(env.alu(OtherAlu(0xa0), false, 0, Num(site), s.regs[2])) &&
      Exec(env, L, s2.s, Hook(req)[2]) == Return(env, L, s.calls, s2.s.regs[0], s.mem, s.log)
  {
  }
}
