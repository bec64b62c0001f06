/** What the postlude check allows, exactly, instruction by instruction and as a whole: it refuses nothing else. */
module PostludeExact {
  import opened Machine
  import opened Postlude

  predicate Looks(p: Site) {
    p.helper == 1 || p.helper == 195
  }

  predicate Readable(s: SymState, r: Reg)
    requires |s.regs| == 11
  {
    (0 <= r <= 5 || r == 10) && !s.regs[r].Undefined?
  }

  // ---------------------------------------------------------------- stores and loads

  /** The save of the helper's result, first or right after a load. */
  predicate SavesResult(p: Site, i: nat)
    requires i < |p.body| && p.body[i].op.Store?
  {
    p.body[i].src == 0 && p.body[i].off == p.floor - 24 && p.body[i].op.size == 8 && (i == 0 || (i == 1 && p.body[0].op.Load?))
  }

  /** Half of a value copy: what was just loaded through the result goes below the fixed slots. */
  predicate CopiesValue(p: Site, i: nat, s: SymState)
    requires i < |p.body| && p.body[i].op.Store?
  {
    Looks(p) && s.calls == 0 && i > 0 && p.body[i].src == 1 && p.body[i].off + p.body[i].op.size <= p.floor - 32 &&
    var load := p.body[i - 1];
    load.op == Load(p.body[i].op.size, false) && load.dst == 1 && load.src == 0 && load.off >= 0
  }

  predicate StoreAllowed(p: Site, i: nat, s: SymState)
    requires i < |p.body| && |s.regs| == 11 && p.body[i].op.Store?
  {
    var ins := p.body[i];
    ins.dst == 10 && -512 <= ins.off && ins.off + ins.op.size <= p.floor && Readable(s, ins.src) && (SavesResult(p, i) || CopiesValue(p, i, s))
  }

  predicate Disjoint(k: int, c: Cell, at: int, size: int) {
    k + c.width <= at || at + size <= k
  }

  lemma {:induction false} StoreExactly(p: Site, i: nat, s: SymState)
    requires SiteOk(p) && i < |p.body| && |s.regs| == 11 && p.body[i].op.Store?
    ensures Straight(p, i, s).Ok? <==> StoreAllowed(p, i, s)
    ensures Straight(p, i, s).Ok? ==>
      var ins, t := p.body[i], Straight(p, i, s).value;
      t.regs == s.regs && t.calls == s.calls && t.arm == s.arm && ins.off in t.stack && t.stack[ins.off] == Cell(s.regs[ins.src], ins.op.size) &&
      forall k | k != ins.off :: (k in t.stack <==> k in s.stack && Disjoint(k, s.stack[k], ins.off, ins.op.size)) && (k in t.stack ==> t.stack[k] == s.stack[k])
  {
  }

  predicate LoadAllowed(p: Site, i: nat, s: SymState)
    requires i < |p.body| && |s.regs| == 11 && p.body[i].op.Load?
  {
    var ins := p.body[i];
    !ins.op.signed && ins.dst <= 5 && (ins.dst == 0 ==> i == |p.body| - 1) &&
    if ins.src == 10 then ins.off in s.stack && s.stack[ins.off].width == ins.op.size
    else Looks(p) && s.calls == 0 && ins.src == 0 && ins.dst == 1 && ins.off >= 0 && i + 1 < |p.body| && p.body[i + 1].op.Store? && Readable(s, 0)
  }

  lemma {:induction false} LoadExactly(p: Site, i: nat, s: SymState)
    requires SiteOk(p) && i < |p.body| && |s.regs| == 11 && p.body[i].op.Load?
    ensures Straight(p, i, s).Ok? <==> LoadAllowed(p, i, s)
    ensures Straight(p, i, s).Ok? ==>
      var ins := p.body[i];
      Straight(p, i, s).value == s.(regs := s.regs[ins.dst := if ins.src == 10 then s.stack[ins.off].v else Opaque])
  {
  }

  // ---------------------------------------------------------------- arithmetic

  predicate AluAllowed(p: Site, i: nat, s: SymState)
    requires i < |p.body| && |s.regs| == 11 && p.body[i].op.Alu?
  {
    var ins, op := p.body[i], p.body[i].op;
    1 <= ins.dst <= 5 && ins.off == 0 && (op.fromReg ==> Readable(s, ins.src)) && (!op.alu.Mov? ==> Readable(s, ins.dst)) &&
    match op.alu
    case Mov => true
    case Add =>
      op.wide && !op.fromReg && s.regs[ins.dst].InFrame? && -512 <= ins.imm < p.floor && -512 <= s.regs[ins.dst].at + ins.imm < p.floor
    case OtherAlu(code) => code == 0x40 || code == 0x50 || code == 0x60
    case _ => false
  }

  /** What an allowed instruction leaves: constants it can name, whole copies, frame addresses, and nothing else known. */
  function AluResult(p: Site, i: nat, s: SymState): Sym
    requires i < |p.body| && |s.regs| == 11 && p.body[i].op.Alu?
  {
    var ins, op := p.body[i], p.body[i].op;
    if op.alu.Add? && s.regs[ins.dst].InFrame? then InFrame(s.regs[ins.dst].at + ins.imm)
    else if !op.alu.Mov? then Opaque
    else if !op.fromReg then (if !op.wide then Imm32(ins.imm) else if ins.imm == 0 then Zero else Opaque)
    else if op.wide || s.regs[ins.src].Imm32? then s.regs[ins.src] else Opaque
  }

  lemma {:induction false} AluExactly(p: Site, i: nat, s: SymState)
    requires SiteOk(p) && i < |p.body| && |s.regs| == 11 && p.body[i].op.Alu?
    ensures Straight(p, i, s).Ok? <==> AluAllowed(p, i, s)
    ensures Straight(p, i, s).Ok? ==> Straight(p, i, s).value == s.(regs := s.regs[p.body[i].dst := AluResult(p, i, s)])
  {
  }

  // ---------------------------------------------------------------- the hook call

  /** The registers a generic hook's R3-R5 must hold, by helper. */
  function Wanted(p: Site, s: SymState): seq<(Reg, Sym)>
    requires |s.regs| == 11
  {
    var mapAt := p.floor - 32;
    if mapAt !in s.stack then []
    else
      var saved, key, value := s.stack[mapAt].v, At(s, p.floor - 16), At(s, p.floor - 40);
      if p.helper == 12 then [(3, InFrame(p.floor - 16)), (4, Zero), (5, saved)]
      else if saved != FromReg(1) then []
      else if p.helper == 1 || p.helper == 195 then [(3, key), (4, TheResult), (5, saved)]
      else if p.helper == 2 then [(3, key), (4, value), (5, saved)]
      else if p.helper == 3 then [(3, key), (4, Zero), (5, saved)]
      else if 87 <= p.helper <= 89 then [(3, Zero), (4, key), (5, saved)]
      else [(5, saved)]
  }

  function At(s: SymState, at: int): Sym {
    if at in s.stack then s.stack[at].v else Undefined
  }

  predicate HasAll(s: SymState, wanted: seq<(Reg, Sym)>)
    requires |s.regs| == 11
  {
    forall k | 0 <= k < |wanted| :: s.regs[wanted[k].0] == wanted[k].1
  }

  /** Nothing else about R3-R5 refuses a call: it has the wanted values or is refused. */
  lemma {:induction false} GenericExactly(p: Site, s: SymState)
    requires |s.regs| == 11
    ensures GenericArgs(p, s) <==> HasAll(s, Wanted(p, s))
  {
    var w := Wanted(p, s);
    if |w| == 3 {
      assert HasAll(s, w) <==> s.regs[w[0].0] == w[0].1 && s.regs[w[1].0] == w[1].1 && s.regs[w[2].0] == w[2].1;
    } else if |w| == 1 {
      assert HasAll(s, w) <==> s.regs[w[0].0] == w[0].1;
    }
  }

  /** The role of each planned argument, and no register set past the last. */
  predicate RolesHeld(p: Site, s: SymState, b: Binding)
    requires |s.regs| == 11
  {
    b.args.Planned? ==>
      |b.args.roles| <= 5 && (forall k | 0 <= k < |b.args.roles| :: RoleHeld(p, s, b, b.args.roles[k], s.regs[1 + k])) &&
      forall r | |b.args.roles| < r <= 5 :: s.regs[r].Undefined?
  }

  predicate RoleHeld(p: Site, s: SymState, b: Binding, role: Role, v: Sym) {
    match role
    case ArgSite => v == Imm32(b.sitePC)
    case ArgValue => v == TheResult || (v.InFrame? && v.at < p.floor - 32)
    case _ =>
      var at := p.floor - (if role == ArgCtx then 8 else if role == ArgKey then 16 else 32);
      at in s.stack && v == s.stack[at].v
  }

  /** The plan's hook for the arm: its own, or on a lookup's hit or miss the site's any. */
  predicate HookFor(p: Site, arm: When, b: Binding) {
    if arm in p.plan then b == p.plan[arm]
    else Looks(p) && (arm == Hit || arm == Miss) && AnyArm in p.plan && b == p.plan[AnyArm]
  }

  ghost predicate CallAllowed(p: Site, i: nat, s: SymState)
    requires SiteOk(p) && i < |p.body| && |s.regs| == 11
  {
    s.calls == 0 && p.hooks[i] >= 0 && p.floor - 8 in s.stack && s.regs[1] == s.stack[p.floor - 8].v && HasAll(s, Wanted(p, s)) &&
    exists b: Binding :: HookFor(p, s.arm, b) && b.hook == p.hooks[i] && RolesHeld(p, s, b)
  }

  lemma {:induction false} RolesExactly(p: Site, s: SymState, b: Binding)
    requires |s.regs| == 11
    ensures PlannedArgs(p, s, b) <==> RolesHeld(p, s, b)
  {
    if b.args.Planned? {
      forall k | 0 <= k < |b.args.roles|
        ensures RoleOk(p, s, b, b.args.roles[k], if k < 5 then s.regs[1 + k] else Opaque) <==>
          RoleHeld(p, s, b, b.args.roles[k], if k < 5 then s.regs[1 + k] else Opaque)
      {
      }
    }
  }

  lemma {:induction false} CallExactly(p: Site, i: nat, s: SymState)
    requires SiteOk(p) && i < |p.body| && |s.regs| == 11 && p.body[i].op.CallFunc?
    ensures Straight(p, i, s).Ok? <==> CallAllowed(p, i, s)
    ensures Straight(p, i, s).Ok? ==>
      var t := Straight(p, i, s).value;
      t.calls == s.calls + 1 && t.stack == s.stack && t.arm == s.arm && t.regs[0] == Opaque && (forall r | 1 <= r <= 5 :: t.regs[r] == Undefined) &&
      forall r | 6 <= r <= 10 :: t.regs[r] == s.regs[r]
  {
    GenericExactly(p, s);
    var b := BindingFor(p, s.arm);
    if b.Ok? {
      assert HookFor(p, s.arm, b.value);
      RolesExactly(p, s, b.value);
    }
  }

  // ---------------------------------------------------------------- jumps, ends and structure

  /** The branch on the result: R0 against zero, 64 bits wide for null with a lookup, its low half's sign otherwise. */
  lemma {:induction false} GuardExactly(p: Site, i: nat, s: SymState)
    requires SiteOk(p) && i < |p.body| && |s.regs| == 11 && p.body[i].op.Branch?
    ensures var ins := p.body[i];
      GuardOk(p, s, ins) <==>
        p.helper != 12 && ins.dst == 0 && ins.imm == 0 && !ins.op.fromReg && !s.regs[0].Undefined? &&
        (if Looks(p) then !ins.op.narrow && (ins.op.test == 0x10 || ins.op.test == 0x50) else ins.op.narrow && ins.op.test == 0x70)
    ensures ArmAfter(p, p.body[i], true) == if !Looks(p) then Success else if p.body[i].op.test == 0x10 then Miss else Hit
    ensures ArmAfter(p, p.body[i], false) == if !Looks(p) then Error else if p.body[i].op.test == 0x10 then Hit else Miss
  {
  }

  /** Jumps go forward, not past the end; an unconditional one has no operands, and a lookup's only ends the postlude. */
  lemma {:induction false} JumpExactly(p: Site, i: nat)
    requires i < |p.body|
    ensures var ins := p.body[i];
      JumpOk(p, i, ins) <==>
        ins.ref == "" && i < i + 1 + ins.off <= |p.body| &&
        (ins.op.Goto? || ins.op.GotoIndirect? ==> ins.imm == 0 && ins.dst == 0 && ins.src == 0 && (Looks(p) ==> |p.body| <= i + 2 + ins.off))
  {
  }

  /** At the end R0 is the result, unless there is none, and no arm the plan names was left without a call. */
  lemma {:induction false} EndExactly(p: Site, s: SymState)
    requires |s.regs| == 11
    ensures EndOk(p, s) <==> (p.helper == 12 || s.regs[0] == TheResult) && (s.calls > 0 || forall b: Binding :: !HookFor(p, s.arm, b))
  {
    if s.arm in p.plan {
      assert HookFor(p, s.arm, p.plan[s.arm]);
    } else if OnLookupArm(p, s.arm) && AnyArm in p.plan {
      assert HookFor(p, s.arm, p.plan[AnyArm]);
    }
  }

  /** Where the instructions of a kind are. */
  ghost function Positions(body: seq<Insn>, kind: Insn -> bool): set<nat> {
    set i: nat | i < |body| && kind(body[i])
  }

  predicate Call(ins: Insn) {
    ins.op.CallFunc?
  }

  /** Jump-class instructions other than a function call, of which the conditions are those that are not plain jumps. */
  predicate Jumping(ins: Insn) {
    Conditional(ins) || ins.op.Goto? || ins.op.GotoLong? || ins.op.GotoIndirect?
  }

  predicate Conditional(ins: Insn) {
    ins.op.Branch? || ins.op.Exit? || ins.op.CallHelper? || ins.op.CallKfunc?
  }

  /** One more instruction adds its own position. */
  lemma {:induction false} OneMore(body: seq<Insn>, kind: Insn -> bool, n: nat)
    requires 0 < n <= |body|
    ensures Positions(body[..n], kind) == Positions(body[..n - 1], kind) + (if kind(body[n - 1]) then {n - 1} else {})
    ensures n - 1 !in Positions(body[..n - 1], kind)
  {
    assert forall i: nat | i < n - 1 :: body[..n - 1][i] == body[..n][i] == body[i];
  }

  lemma {:induction false} Counted(body: seq<Insn>, kind: Insn -> bool, n: nat)
    requires n <= |body|
    ensures (forall ins :: kind(ins) == Call(ins)) ==> |Positions(body[..n], kind)| == Calls(body, n)
    ensures (forall ins :: kind(ins) == Jumping(ins)) ==> |Positions(body[..n], kind)| == Branches(body, n)
    ensures (forall ins :: kind(ins) == Conditional(ins)) ==> |Positions(body[..n], kind)| == Conditions(body, n)
    decreases n
  {
    if n > 0 {
      Counted(body, kind, n - 1);
      OneMore(body, kind, n);
    } else {
      assert Positions(body[..0], kind) == {};
    }
  }

  /** The structure of a postlude: the result saved and restored whole; for a lookup one or two calls and one branch, in
      second place; for others one call and at most one branch, none after a tail call. */
  lemma {:induction false} StructureExactly(p: Site)
    ensures StructureOk(p) <==>
      p.body != [] && (p.helper == 12 || Restores(p)) &&
      var calls, jumps, conditions := |Positions(p.body, Call)|, |Positions(p.body, Jumping)|, |Positions(p.body, Conditional)|;
      if Looks(p) then
        1 <= calls <= 2 && conditions == 1 && jumps <= 2 && |p.body| >= 2 && p.body[1].op.Branch? && (p.body[1].op.test == 0x10 || p.body[1].op.test == 0x50)
      else calls == 1 && jumps == conditions <= 1 && (p.helper == 12 ==> jumps == 0)
  {
    assert p.body[..|p.body|] == p.body;
    Counted(p.body, Call, |p.body|);
    Counted(p.body, Jumping, |p.body|);
    Counted(p.body, Conditional, |p.body|);
  }

  predicate Restores(p: Site) {
    var save := if p.body != [] && p.body[0].op.Load? then 1 else 0;
    |p.body| >= save + 2 &&
    p.body[save].op == Store(8) && p.body[save].dst == 10 && p.body[save].src == 0 && p.body[save].off == p.floor - 24 &&
    var last := p.body[|p.body| - 1];
    last.op == Load(8, false) && last.dst == 0 && last.src == 10 && last.off == p.floor - 24
  }

  /** Where a walk starts: what the prelude saved, R0 the result, R1-R5 gone. */
  lemma {:induction false} StartExactly(p: Site)
    ensures Start(p).stack == Prelude(p, |p.before|).stack && Start(p).regs[0] == (if p.helper == 12 then Undefined else TheResult)
    ensures (forall r | 1 <= r <= 5 :: Start(p).regs[r] == Undefined) && forall r | 6 <= r <= 10 :: Start(p).regs[r] == Prelude(p, |p.before|).regs[r]
  {
  }
}
