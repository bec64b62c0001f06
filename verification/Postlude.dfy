/** The offline checker's symbolic walk over the instructions inserted after an observed helper call. */
module Postlude {
  import opened Machine

  const STACK_BOTTOM := -512
  const SLOT_CONTEXT := -8
  const SLOT_KEY := -16
  const SLOT_RESULT := -24
  const SLOT_MAP := -32
  const SLOT_VALUE := -40
  const BUDGET := 4096

  const JEQ := 0x10
  const JNE := 0x50
  const JSGE := 0x70
  const ALU_OR := 0x40
  const ALU_AND := 0x50
  const ALU_LSH := 0x60

  const LOOKUP := 1
  const UPDATE := 2
  const DELETE := 3
  const TAIL_CALL := 12
  const PUSH := 87
  const POP := 88
  const PEEK := 89
  const LOOKUP_PERCPU := 195

  // ---------------------------------------------------------------- symbolic states

  /** What the checker knows of a register or spill. */
  datatype Sym = Undefined | Opaque | Zero | Imm32(n: int) | InFrame(at: int) | FromReg(r: int) | TheContext | TheResult

  datatype Cell = Cell(v: Sym, width: int)

  /** Which result arm a path is on. */
  datatype When = AnyArm | Hit | Miss | Error | Success

  datatype SymState = SymState(regs: seq<Sym>, stack: map<int, Cell>, calls: nat, arm: When)

  datatype Role = ArgCtx | ArgSite | ArgKey | ArgValue | ArgMap
  datatype Args = Unplanned | Planned(roles: seq<Role>)
  datatype Binding = Binding(hook: int, args: Args, sitePC: int)

  /** Where a callee frame gets its context from, if the plan says. */
  datatype CtxSource = NoSource | InRegister(r: int) | InSlot(off: int)

  /** One site: the helper, the postlude, the hook each of its calls targets (-1 for none), the plan, the
      reserved frame's upper end, and how the context arrives. */
  datatype Site = Site(helper: int, before: seq<Insn>, body: seq<Insn>, hooks: seq<int>, plan: map<When, Binding>, floor: int,
                       entryCtx: bool, source: CtxSource) {
    predicate IsLookup() { helper == LOOKUP || helper == LOOKUP_PERCPU }
    predicate IsTail() { helper == TAIL_CALL }
  }

  predicate SiteOk(p: Site) {
    |p.hooks| == |p.body| && p.floor <= 0 && (p.source.InRegister? ==> 6 <= p.source.r <= 9) &&
    (forall i | 0 <= i < |p.before| :: PreludeOk(p, p.before[i])) &&
    forall i | 0 <= i < |p.body| && p.body[i].op.Store? :: 1 <= p.body[i].op.size <= 8
  }

  /** The prelude only saves registers into the reserved frame and loads the context from its slot, full width. */
  predicate PreludeOk(p: Site, ins: Insn) {
    (ins.op == Load(8, false) && ins.src == FP && ins.dst <= 5 && p.source.InSlot? && ins.off == p.source.off && ins.off >= p.floor) ||
    (ins.op == Store(8) && ins.dst == FP && STACK_BOTTOM <= ins.off && ins.off + 8 <= p.floor)
  }

  /** Stores forget every spill they overlap. */
  function Put(stack: map<int, Cell>, at: int, width: int, v: Sym): map<int, Cell> {
    (map k | k in stack && !(k < at + width && at < k + stack[k].width) :: stack[k])[at := Cell(v, width)]
  }

  function InitialRegs(): seq<Sym> {
    seq(11, r => if r == 10 then InFrame(0) else FromReg(r))
  }

  function Before(s: SymState, ins: Insn): SymState
    requires |s.regs| == 11
  {
    if ins.op.Load?
    then s.(regs := s.regs[ins.dst := if ins.off in s.stack then s.stack[ins.off].v else Undefined])
    else s.(stack := Put(s.stack, ins.off, 8, s.regs[ins.src]))
  }

  function Prelude(p: Site, n: nat): (s: SymState)
    requires n <= |p.before|
    ensures |s.regs| == 11 && s.arm.AnyArm? && s.calls == 0
  {
    if n == 0 then
      var regs := if p.source.InRegister? && 0 <= p.source.r <= 10 then InitialRegs()[p.source.r := TheContext] else InitialRegs();
      var entry: map<int, Cell> := if p.entryCtx then map[p.floor + SLOT_CONTEXT := Cell(TheContext, 8)] else map[];
      SymState(regs, if p.source.InSlot? then entry[p.source.off := Cell(TheContext, 8)] else entry, 0, AnyArm)
    else Before(Prelude(p, n - 1), p.before[n - 1])
  }

  /** The state the walk starts in: the helper has returned. */
  function Start(p: Site): (s: SymState)
    ensures |s.regs| == 11 && s.arm.AnyArm? && s.calls == 0
  {
    var s := Prelude(p, |p.before|);
    s.(regs := [if p.IsTail() then Undefined else TheResult, Undefined, Undefined, Undefined, Undefined, Undefined] + s.regs[6..])
  }

  // ---------------------------------------------------------------- one instruction

  predicate MayRead(s: SymState, r: Reg)
    requires |s.regs| == 11
  {
    (r <= 5 || r == FP) && s.regs[r] != Undefined
  }

  predicate IsSave(p: Site, i: int)
  {
    0 <= i < |p.body| && p.body[i].op == Store(8) && p.body[i].dst == FP && p.body[i].src == 0 && p.body[i].off == p.floor + SLOT_RESULT
  }

  /** The load half of a lookup value copy. */
  predicate IsCopyLoad(ins: Insn, size: int) {
    ins.op.Load? && !ins.op.signed && ins.op.size == size && ins.dst == 1 && ins.src == 0 && ins.off >= 0
  }

  function Stored(p: Site, i: nat, s: SymState): Result<SymState>
    requires i < |p.body| && |s.regs| == 11 && p.body[i].op.Store?
  {
    var ins := p.body[i];
    var at, w := ins.off, ins.op.size;
    var result := IsSave(p, i) && (i == 0 || (i == 1 && p.body[0].op.Load?));
    var copyPair := p.IsLookup() && s.calls == 0 && i > 0 && ins.src == 1 && at + w <= p.floor + SLOT_MAP && IsCopyLoad(p.body[i - 1], w);
    if ins.dst != FP || at < STACK_BOTTOM || at + w > p.floor then Refused(BelowAuditedBound)
    else if !MayRead(s, ins.src) then Refused(Unresolved)
    else if !result && !copyPair then Refused(BadSite)
    else Ok(s.(stack := Put(s.stack, at, w, s.regs[ins.src])))
  }

  function Reloaded(p: Site, i: nat, s: SymState): Result<SymState>
    requires i < |p.body| && |s.regs| == 11 && p.body[i].op.Load?
  {
    var ins := p.body[i];
    if ins.op.signed || ins.dst > 5 || (ins.dst == 0 && i != |p.body| - 1) then Refused(BadSite)
    else if ins.src == FP then
      if ins.off in s.stack && s.stack[ins.off].width == ins.op.size
      then Ok(s.(regs := s.regs[ins.dst := s.stack[ins.off].v])) else Refused(Unresolved)
    else if !p.IsLookup() || s.calls != 0 || ins.src != 0 || ins.dst != 1 || ins.off < 0 || i + 1 >= |p.body| || !p.body[i + 1].op.Store? ||
            !MayRead(s, ins.src) then Refused(BadSite)
    else Ok(s.(regs := s.regs[1 := Opaque]))
  }

  function Computed(p: Site, i: nat, s: SymState): Result<SymState>
    requires i < |p.body| && |s.regs| == 11 && p.body[i].op.Alu?
  {
    var ins, op := p.body[i], p.body[i].op;
    if ins.dst == 0 || ins.dst > 5 || ins.off != 0 then Refused(BadSite)
    else if op.fromReg && !MayRead(s, ins.src) then Refused(Unresolved)
    else if !op.alu.Mov? && !MayRead(s, ins.dst) then Refused(Unresolved)
    else
      var src := if op.fromReg then s.regs[ins.src]
                 else if op.wide && op.alu.Mov? && ins.imm == 0 then Zero
                 else if !op.wide && op.alu.Mov? then Imm32(ins.imm) else Opaque;
      match op.alu
      case Mov => Ok(s.(regs := s.regs[ins.dst := if !op.wide && !src.Imm32? then Opaque else src]))
      case Add =>
        if !op.wide || op.fromReg || !s.regs[ins.dst].InFrame? || !(STACK_BOTTOM <= ins.imm < p.floor) then Refused(BadSite)
        else
          var at := s.regs[ins.dst].at + ins.imm;
          if !(STACK_BOTTOM <= at < p.floor) then Refused(BadSite) else Ok(s.(regs := s.regs[ins.dst := InFrame(at)]))
      case OtherAlu(code) =>
        if code == ALU_AND || code == ALU_LSH || code == ALU_OR then Ok(s.(regs := s.regs[ins.dst := Opaque])) else Refused(Unsupported)
      case _ => Refused(Unsupported)
  }

  // ---------------------------------------------------------------- the hook call

  predicate OnLookupArm(p: Site, arm: When) {
    p.IsLookup() && (arm.Hit? || arm.Miss?)
  }

  /** The plan's binding for a call on this arm: its own, or for a lookup arm the site's any. */
  function BindingFor(p: Site, arm: When): Result<Binding> {
    if arm in p.plan then Ok(p.plan[arm])
    else if OnLookupArm(p, arm) && AnyArm in p.plan then Ok(p.plan[AnyArm])
    else Refused(Unresolved)
  }

  predicate IsPlanned(p: Site, arm: When) {
    arm in p.plan || (OnLookupArm(p, arm) && AnyArm in p.plan)
  }

  predicate SlotIs(s: SymState, at: int, v: Sym) {
    at in s.stack && s.stack[at].v == v
  }

  predicate RoleOk(p: Site, s: SymState, b: Binding, role: Role, v: Sym) {
    match role
    case ArgCtx => SlotIs(s, p.floor + SLOT_CONTEXT, v)
    case ArgSite => v == Imm32(b.sitePC)
    case ArgKey => SlotIs(s, p.floor + SLOT_KEY, v)
    case ArgValue => v.TheResult? || (v.InFrame? && v.at < p.floor + SLOT_MAP)
    case ArgMap => SlotIs(s, p.floor + SLOT_MAP, v)
  }

  predicate PlannedArgs(p: Site, s: SymState, b: Binding)
    requires |s.regs| == 11
  {
    b.args.Planned? ==>
      |b.args.roles| <= 5 &&
      (forall i | 0 <= i < |b.args.roles| :: RoleOk(p, s, b, b.args.roles[i], s.regs[1 + i])) &&
      (forall r | 1 + |b.args.roles| <= r <= 5 :: s.regs[r] == Undefined)
  }

  function StackAt(s: SymState, at: int): Sym {
    if at in s.stack then s.stack[at].v else Undefined
  }

  /** R3-R5 of a generic hook: the helper's own map, key, value and result, by kind of helper. */
  predicate GenericArgs(p: Site, s: SymState)
    requires |s.regs| == 11
  {
    var mapAt, key := p.floor + SLOT_MAP, StackAt(s, p.floor + SLOT_KEY);
    if p.IsTail() && mapAt in s.stack then
      s.regs[3] == InFrame(p.floor + SLOT_KEY) && s.regs[4].Zero? && s.regs[5] == s.stack[mapAt].v
    else if mapAt in s.stack && s.stack[mapAt].v == FromReg(1) then
      s.regs[5] == s.stack[mapAt].v &&
      (p.IsLookup() ==> s.regs[3] == key && s.regs[4].TheResult?) &&
      (p.helper == UPDATE ==> s.regs[3] == key && s.regs[4] == StackAt(s, p.floor + SLOT_VALUE)) &&
      (p.helper == DELETE ==> s.regs[3] == key && s.regs[4].Zero?) &&
      (p.helper == PUSH || p.helper == POP || p.helper == PEEK ==> s.regs[3].Zero? && s.regs[4] == key)
    else true
  }

  function Called(p: Site, i: nat, s: SymState): Result<SymState>
    requires SiteOk(p) && i < |p.body| && |s.regs| == 11 && p.body[i].op.CallFunc?
  {
    var b := BindingFor(p, s.arm);
    if p.hooks[i] < 0 || b.Refused? || b.value.hook != p.hooks[i] then Refused(NotASubprogram)
    else if s.calls > 0 then Refused(Ambiguous)
    else if !SlotIs(s, p.floor + SLOT_CONTEXT, s.regs[1]) || !PlannedArgs(p, s, b.value) || !GenericArgs(p, s) then Refused(BadRequest)
    else Ok(s.(calls := s.calls + 1, regs := [Opaque, Undefined, Undefined, Undefined, Undefined, Undefined] + s.regs[6..]))
  }

  // ---------------------------------------------------------------- the walk

  predicate IsJa(ins: Insn) {
    ins.op.Goto? || ins.op.GotoIndirect?
  }

  predicate JumpOk(p: Site, i: nat, ins: Insn)
    requires i < |p.body|
  {
    ins.ref == "" && 0 <= ins.off && i + 1 + ins.off <= |p.body| &&
    (IsJa(ins) ==> ins.imm == 0 && ins.dst == 0 && ins.src == 0 && (p.IsLookup() ==> i + 1 + ins.off >= |p.body| - 1))
  }

  /** A branch on the helper's result, by kind of helper. */
  predicate GuardOk(p: Site, s: SymState, ins: Insn)
    requires ins.op.Branch? && |s.regs| == 11
  {
    !p.IsTail() && ins.dst == 0 && ins.imm == 0 && !ins.op.fromReg && MayRead(s, 0) &&
    (if p.IsLookup() then !ins.op.narrow && (ins.op.test == JEQ || ins.op.test == JNE) else ins.op.narrow && ins.op.test == JSGE)
  }

  function ArmAfter(p: Site, ins: Insn, taken: bool): When
    requires ins.op.Branch?
  {
    if !p.IsLookup() then (if taken then Success else Error)
    else if taken == (ins.op.test == JEQ) then Miss else Hit
  }

  predicate EndOk(p: Site, s: SymState)
    requires |s.regs| == 11
  {
    (s.calls == 0 ==> !IsPlanned(p, s.arm)) && (p.IsTail() || s.regs[0].TheResult?)
  }

  function Straight(p: Site, i: nat, s: SymState): (r: Result<SymState>)
    requires SiteOk(p) && i < |p.body| && |s.regs| == 11
    ensures r.Ok? ==> |r.value.regs| == 11
  {
    match p.body[i].op
    case Store(_) => Stored(p, i, s)
    case Load(_, _) => Reloaded(p, i, s)
    case Alu(_, _, _) => Computed(p, i, s)
    case CallFunc => Called(p, i, s)
    case _ => Refused(Unsupported)
  }

  /** Every path from instruction `i` in state `s` is accepted. */
  predicate WalkOk(p: Site, i: nat, s: SymState)
    requires SiteOk(p) && i <= |p.body| && |s.regs| == 11
    decreases |p.body| - i
  {
    if i == |p.body| then EndOk(p, s)
    else
      var ins := p.body[i];
      if IsJa(ins) then JumpOk(p, i, ins) && WalkOk(p, i + 1 + ins.off, s)
      else if ins.op.Branch? then
        JumpOk(p, i, ins) && GuardOk(p, s, ins) &&
        WalkOk(p, i + 1, s.(arm := ArmAfter(p, ins, false))) && WalkOk(p, i + 1 + ins.off, s.(arm := ArmAfter(p, ins, true)))
      else
        var next := Straight(p, i, s);
        next.Ok? && WalkOk(p, i + 1, next.value)
  }

  /** The most visits the walk can make from instruction `i` on. */
  function Visits(body: seq<Insn>, i: nat): nat
    requires i <= |body|
    decreases |body| - i
  {
    if i == |body| then 1 else if body[i].op.Branch? then 1 + Visits(body, i + 1) + Visits(body, i + 1) else 1 + Visits(body, i + 1)
  }

  lemma {:induction false} LaterVisits(body: seq<Insn>, i: nat, j: nat)
    requires i <= j <= |body|
    ensures Visits(body, j) <= Visits(body, i)
    decreases |body| - i
  {
    if i < j {
      LaterVisits(body, i + 1, j);
    }
  }

  /** The recursive walk with its path budget; the state is passed by value, so each arm mutates its own. */
  method Walk(p: Site, i: nat, start: SymState, visited: nat) returns (ok: bool, visits: nat)
    requires SiteOk(p) && i <= |p.body| && |start.regs| == 11
    ensures visited < visits <= visited + Visits(p.body, i)
    ensures ok ==> WalkOk(p, i, start)
    ensures !ok ==> !WalkOk(p, i, start) || visits > BUDGET
    decreases |p.body| - i
  {
    visits := visited + 1;
    if visits > BUDGET {
      return false, visits;
    }
    if i == |p.body| {
      return EndOk(p, start), visits;
    }
    var ins, s := p.body[i], start;
    if IsJa(ins) || ins.op.Branch? {
      if !JumpOk(p, i, ins) {
        return false, visits;
      }
      LaterVisits(p.body, i + 1, i + 1 + ins.off);
      ghost var most := Visits(p.body, i + 1);
      assert Visits(p.body, i + 1 + ins.off) <= most;
      if ins.op.Branch? {
        if !GuardOk(p, s, ins) {
          return false, visits;
        }
        ok, visits := Walk(p, i + 1, s.(arm := ArmAfter(p, ins, false)), visits);
        if !ok {
          return;
        }
        s := s.(arm := ArmAfter(p, ins, true));
      }
      ok, visits := Walk(p, i + 1 + ins.off, s, visits);
      return;
    }
    var next := Straight(p, i, s);
    if next.Refused? {
      return false, visits;
    }
    ok, visits := Walk(p, i + 1, next.value, visits);
  }

  // ---------------------------------------------------------------- the structure of a postlude

  function Calls(body: seq<Insn>, n: nat): nat
    requires n <= |body|
  {
    if n == 0 then 0 else Calls(body, n - 1) + (if body[n - 1].op.CallFunc? then 1 else 0)
  }

  function Conditions(body: seq<Insn>, n: nat): nat
    requires n <= |body|
  {
    if n == 0 then 0 else Conditions(body, n - 1) + (if IsCondition(body[n - 1]) then 1 else 0)
  }

  function Branches(body: seq<Insn>, n: nat): nat
    requires n <= |body|
  {
    if n == 0 then 0
    else Branches(body, n - 1) + (if InJumpClass(body[n - 1]) then 1 else 0)
  }

  /** Any jump-class instruction other than a call to a function. */
  predicate InJumpClass(ins: Insn) {
    ins.op.Goto? || ins.op.GotoLong? || ins.op.GotoIndirect? || ins.op.Branch? || ins.op.Exit? || ins.op.CallHelper? || ins.op.CallKfunc?
  }

  predicate IsCondition(ins: Insn) {
    InJumpClass(ins) && !ins.op.Goto? && !ins.op.GotoLong? && !ins.op.GotoIndirect?
  }

  predicate SaveRestoreOk(p: Site) {
    var save := if p.body != [] && p.body[0].op.Load? then 1 else 0;
    |p.body| > save + 1 && IsSave(p, save) &&
    var last := p.body[|p.body| - 1];
    last.op == Load(8, false) && last.dst == 0 && last.src == FP && last.off == p.floor + SLOT_RESULT
  }

  predicate StructureOk(p: Site) {
    var n := |p.body|;
    p.body != [] && (p.IsTail() || SaveRestoreOk(p)) &&
    if p.IsLookup() then
      1 <= Calls(p.body, n) <= 2 && Conditions(p.body, n) == 1 && Branches(p.body, n) <= 2 && n >= 2 &&
      p.body[1].op.Branch? && (p.body[1].op.test == JEQ || p.body[1].op.test == JNE)
    else
      Calls(p.body, n) == 1 && Branches(p.body, n) <= 1 && Conditions(p.body, n) == Branches(p.body, n) && (p.IsTail() ==> Branches(p.body, n) == 0)
  }

  ghost predicate Accepted(p: Site) {
    SiteOk(p) && StructureOk(p) && WalkOk(p, 0, Start(p))
  }

  /** Counts calls, jumps and conditions in one pass. */
  method Tally(body: seq<Insn>) returns (calls: nat, branches: nat, conditions: nat)
    ensures calls == Calls(body, |body|) && branches == Branches(body, |body|) && conditions == Conditions(body, |body|)
  {
    calls, branches, conditions := 0, 0, 0;
    for i := 0 to |body|
      invariant calls == Calls(body, i) && branches == Branches(body, i) && conditions == Conditions(body, i)
    {
      if body[i].op.CallFunc? {
        calls := calls + 1;
      }
      if InJumpClass(body[i]) {
        branches := branches + 1;
        if IsCondition(body[i]) {
          conditions := conditions + 1;
        }
      }
    }
  }

  /** With one condition at most, each instruction is visited at most twice. */
  lemma {:induction false} VisitsAreFew(body: seq<Insn>, i: nat)
    requires i <= |body| && Conditions(body, |body|) <= Conditions(body, i) + 1
    ensures Conditions(body, i) <= Conditions(body, |body|) && Visits(body, i) <= 2 * (|body| - i + 1)
    ensures Conditions(body, |body|) == Conditions(body, i) ==> Visits(body, i) == |body| - i + 1
    decreases |body| - i
  {
    if i < |body| {
      VisitsAreFew(body, i + 1);
    }
  }

  /** The check of one helper site: its answer is exact unless the postlude is longer than any the budget covers. */
  method CheckAfter(p: Site) returns (ok: bool, visits: nat)
    requires SiteOk(p)
    ensures ok ==> Accepted(p)
    ensures |p.body| < 2048 ==> (ok <==> Accepted(p))
    ensures !ok ==> !Accepted(p) || visits > BUDGET
  {
    visits := 0;
    if p.body == [] || (!p.IsTail() && !SaveRestoreOk(p)) {
      return false, visits;
    }
    var calls, branches, conditions := Tally(p.body);
    if p.IsLookup() {
      if calls < 1 || calls > 2 || conditions != 1 || branches > 2 || |p.body| < 2 || !p.body[1].op.Branch? ||
         (p.body[1].op.test != JEQ && p.body[1].op.test != JNE) {
        return false, visits;
      }
    } else if calls != 1 || branches > 1 || conditions != branches || (p.IsTail() && branches != 0) {
      return false, visits;
    }
    VisitsAreFew(p.body, 0);
    ok, visits := Walk(p, 0, Start(p), 0);
  }
}
