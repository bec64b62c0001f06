/** Why an accepted postlude may run after the helper: on every concrete path it leaves the program's registers
    and frame alone, calls at most one hook, the planned one, with the saved context, and restores the result. */
module PostludeSound {
  import opened Machine
  import opened Postlude

  // ---------------------------------------------------------------- what symbolic values mean

  /** The concrete facts symbolic values stand for. */
  datatype Facts = Facts(init: seq<Value>, ctx: Value, result: Value, d: nat)

  ghost predicate Denotes(a: Sym, v: Value, x: Facts) {
    match a
    case Undefined => true
    case Opaque => true
    case Zero => v == Num(0)
    case Imm32(n) => v == Num(Low32(n))
    case InFrame(at) => v == Ptr(Frame(x.d), at)
    case FromReg(r) => 0 <= r < |x.init| ==> v == x.init[r]
    case TheContext => v == x.ctx
    case TheResult => v == x.result
  }

  /** The spill area, and the audited slot the context may come from. */
  predicate Spill(p: Site, at: int, width: int) {
    1 <= width <= 8 && ((STACK_BOTTOM <= at && at + width <= p.floor) || (p.source.InSlot? && at == p.source.off && width == 8))
  }

  ghost function SpillValue(env: Env, m: Memory, x: Facts, at: int): Value {
    LoadBytes(env, m, Frame(x.d), at, 8, false)
  }

  ghost predicate CellHolds(p: Site, env: Env, c: Cell, m: Memory, x: Facts, at: int) {
    Spill(p, at, c.width) &&
    if c.width == 8 then Denotes(c.v, SpillValue(env, m, x, at), x) else c.v.Opaque? || c.v.Undefined?
  }

  ghost predicate CellsHold(p: Site, env: Env, stack: map<int, Cell>, m: Memory, x: Facts) {
    forall at | at in stack :: CellHolds(p, env, stack[at], m, x, at)
  }

  ghost predicate RegsHold(regs: seq<Sym>, s: State, x: Facts) {
    |regs| == 11 && |s.regs| == 11 && |s.calls| == x.d && regs[FP] == InFrame(0) && forall r | 0 <= r < 11 :: Denotes(regs[r], s.regs[r], x)
  }

  ghost predicate Matches(p: Site, env: Env, a: SymState, s: State, x: Facts) {
    RegsHold(a.regs, s, x) && CellsHold(p, env, a.stack, s.mem, x)
  }

  // ---------------------------------------------------------------- memory

  /** The spill area and the context's slot are untouched. */
  ghost predicate Intact(p: Site, m: Memory, m': Memory, d: nat) {
    forall o: int | (STACK_BOTTOM <= o < p.floor) || (p.source.InSlot? && p.source.off <= o < p.source.off + 8) :: m'(Frame(d), o) == m(Frame(d), o)
  }

  lemma {:induction false} SpillKept(env: Env, m: Memory, m': Memory, x: Facts, at: int)
    requires forall o: int | at <= o < at + 8 :: m'(Frame(x.d), o) == m(Frame(x.d), o)
    ensures SpillValue(env, m', x, at) == SpillValue(env, m, x, at)
  {
    assert Bytes(m', Frame(x.d), at, 8) == Bytes(m, Frame(x.d), at, 8);
  }

  lemma {:induction false} IntactKeeps(p: Site, env: Env, stack: map<int, Cell>, m: Memory, m': Memory, x: Facts)
    requires CellsHold(p, env, stack, m, x) && Intact(p, m, m', x.d)
    ensures CellsHold(p, env, stack, m', x)
  {
    forall at | at in stack
      ensures CellHolds(p, env, stack[at], m', x, at)
    {
      assert CellHolds(p, env, stack[at], m, x, at);
      if stack[at].width == 8 {
        SpillKept(env, m, m', x, at);
      }
    }
  }

  lemma {:induction false} StoreSpills(env: Env, m: Memory, x: Facts, at: int, v: Value)
    ensures SpillValue(env, StoreBytes(m, Frame(x.d), at, 8, v), x, at) == v
  {
    var s := Bytes(StoreBytes(m, Frame(x.d), at, 8, v), Frame(x.d), at, 8);
    assert forall i | 0 <= i < 8 :: s[i] == Frag(v, i);
  }

  lemma {:induction false} PutHolds(p: Site, env: Env, stack: map<int, Cell>, m: Memory, x: Facts, at: int, width: nat, a: Sym, v: Value)
    requires CellsHold(p, env, stack, m, x) && Spill(p, at, width)
    requires Denotes(a, v, x) && (width == 8 || a.Opaque? || a.Undefined?)
    ensures CellsHold(p, env, Put(stack, at, width, a), StoreBytes(m, Frame(x.d), at, width, v), x)
  {
    var m', stack' := StoreBytes(m, Frame(x.d), at, width, v), Put(stack, at, width, a);
    forall k | k in stack'
      ensures CellHolds(p, env, stack'[k], m', x, k)
    {
      if k == at {
        if width == 8 { StoreSpills(env, m, x, at, v); }
      } else {
        assert CellHolds(p, env, stack[k], m, x, k);
        if stack[k].width == 8 { SpillKept(env, m, m', x, k); }
      }
    }
  }

  // ---------------------------------------------------------------- the prelude and the helper

  /** The state control reaches the site in. */
  ghost predicate AtSite(p: Site, env: Env, s: State, x: Facts) {
    |s.regs| == 11 && |s.calls| == x.d && |x.init| == 10 && s.regs[FP] == FramePtr(x.d) &&
    (forall r | 0 <= r < 10 :: s.regs[r] == x.init[r]) &&
    (p.source.InRegister? ==> 6 <= p.source.r <= 9 && s.regs[p.source.r] == x.ctx) &&
    (p.source.InSlot? ==> SpillValue(env, s.mem, x, p.source.off) == x.ctx) &&
    (p.entryCtx ==> Spill(p, p.floor + SLOT_CONTEXT, 8) && SpillValue(env, s.mem, x, p.floor + SLOT_CONTEXT) == x.ctx)
  }

  ghost predicate RunsPrelude(p: Site, env: Env, L: Loaded, pre: seq<State>) {
    |pre| == |p.before| + 1 && forall n | 0 <= n < |p.before| :: |pre[n].regs| == 11 && Exec(env, L, pre[n], p.before[n]) == Running(pre[n + 1])
  }

  /** The helper returned its result, R6-R10 and the spills intact. */
  ghost predicate Returned(p: Site, s: State, s': State, x: Facts) {
    |s.regs| == |s'.regs| == 11 && s'.calls == s.calls && Intact(p, s.mem, s'.mem, x.d) &&
    (forall r | 6 <= r <= 10 :: s'.regs[r] == s.regs[r]) && s'.regs[0] == x.result
  }

  lemma {:induction false} PreludeStep(p: Site, env: Env, L: Loaded, s: State, s': State, x: Facts, a: SymState, ins: Insn)
    requires Matches(p, env, a, s, x) && PreludeOk(p, ins) && Exec(env, L, s, ins) == Running(s') && s.regs[FP] == FramePtr(x.d)
    requires ins.op.Load? ==> ins.off !in a.stack || a.stack[ins.off].width == 8
    ensures Matches(p, env, Before(a, ins), s', x) && s'.regs[FP] == FramePtr(x.d)
  {
    if ins.op.Store? {
      PutHolds(p, env, a.stack, s.mem, x, ins.off, 8, a.regs[ins.src], s.regs[ins.src]);
    } else if ins.off in a.stack {
      assert CellHolds(p, env, a.stack[ins.off], s.mem, x, ins.off);
    }
  }

  lemma {:induction false} WholeCells(p: Site, n: nat)
    requires SiteOk(p) && n <= |p.before|
    ensures forall at | at in Prelude(p, n).stack :: Prelude(p, n).stack[at].width == 8
    decreases n
  {
    if n > 0 {
      WholeCells(p, n - 1);
    }
  }

  lemma {:induction false} SiteMatches(p: Site, env: Env, s: State, x: Facts)
    requires SiteOk(p) && AtSite(p, env, s, x)
    ensures Matches(p, env, Prelude(p, 0), s, x)
  {
    var a := Prelude(p, 0);
    assert forall r | 0 <= r < 10 :: InitialRegs()[r] == FromReg(r);
    forall at | at in a.stack
      ensures CellHolds(p, env, a.stack[at], s.mem, x, at)
    {
    }
  }

  lemma {:induction false} PreludeMatches(p: Site, env: Env, L: Loaded, pre: seq<State>, x: Facts, n: nat)
    requires SiteOk(p) && RunsPrelude(p, env, L, pre) && AtSite(p, env, pre[0], x) && n <= |p.before|
    ensures Matches(p, env, Prelude(p, n), pre[n], x) && pre[n].regs[FP] == FramePtr(x.d)
    decreases n
  {
    if n == 0 {
      SiteMatches(p, env, pre[0], x);
    } else {
      PreludeMatches(p, env, L, pre, x, n - 1);
      WholeCells(p, n - 1);
      assert PreludeOk(p, p.before[n - 1]);
      PreludeStep(p, env, L, pre[n - 1], pre[n], x, Prelude(p, n - 1), p.before[n - 1]);
    }
  }

  /** Once the helper has returned, the walk's first state is right. */
  lemma {:induction false} StartMatches(p: Site, env: Env, L: Loaded, pre: seq<State>, s: State, x: Facts)
    requires SiteOk(p) && RunsPrelude(p, env, L, pre) && AtSite(p, env, pre[0], x) && Returned(p, pre[|p.before|], s, x)
    ensures Matches(p, env, Start(p), s, x)
  {
    PreludeMatches(p, env, L, pre, x, |p.before|);
    var a := Prelude(p, |p.before|);
    IntactKeeps(p, env, a.stack, pre[|p.before|].mem, s.mem, x);
    var regs := Start(p).regs;
    forall r | 0 <= r < 11
      ensures Denotes(regs[r], s.regs[r], x)
    {
      if r >= 6 { assert regs[r] == a.regs[r]; }
    }
  }

  // ---------------------------------------------------------------- paths

  /** A point on a path through the postlude. */
  datatype Point = Point(i: nat, s: State)

  /** A hook runs and returns: it is an observer, so it leaves the spills alone; R1-R5 do not survive it. */
  ghost predicate HookRuns(p: Site, s: State, s': State, d: nat) {
    |s.regs| == |s'.regs| == 11 && s'.calls == s.calls && Intact(p, s.mem, s'.mem, d) && forall r | 6 <= r <= 10 :: s'.regs[r] == s.regs[r]
  }

  ghost predicate Moves(p: Site, env: Env, L: Loaded, x: Facts, base: int, a: Point, b: Point) {
    a.i < |p.body| && |a.s.regs| == 11 && a.s.pc == base + a.i && b.s.pc == base + b.i &&
    if p.body[a.i].op.CallFunc? then b.i == a.i + 1 && HookRuns(p, a.s, b.s, x.d)
    else Exec(env, L, a.s, p.body[a.i]) == Running(b.s)
  }

  /** The arm the helper's result is on: hit or miss for a lookup, success or error for any other helper. */
  ghost function ResultArm(p: Site, env: Env, x: Facts): When {
    if p.IsLookup() then (if x.result == Num(0) then Miss else Hit)
    else if env.cond(JSGE, true, x.result, Num(0)) then Success else Error
  }

  /** Whether the branch on the result lies before `i`; jumps only go forward, so every path to `i` took it. */
  predicate Decided(p: Site, i: nat)
    requires i <= |p.body|
  {
    exists j | 0 <= j < i :: p.body[j].op.Branch?
  }

  /** The arm of every path at `i`: the result's own once the branch is behind, any before it. */
  ghost function ArmAt(p: Site, env: Env, x: Facts, i: nat): When
    requires i <= |p.body|
  {
    if Decided(p, i) then ResultArm(p, env, x) else AnyArm
  }

  ghost predicate TestsZero(env: Env) {
    forall v: Value :: env.cond(JEQ, false, v, Num(0)) == (v == Num(0)) && env.cond(JNE, false, v, Num(0)) == (v != Num(0))
  }

  /** Until the hook has run, R0 is the result and the arm is the true one; before the branch the path is straight. */
  ghost predicate Truthful(p: Site, env: Env, i: nat, a: SymState, x: Facts)
    requires |a.regs| == 11 && i <= |p.body|
  {
    (a.calls == 0 ==> a.arm == ArmAt(p, env, x, i) && (i < |p.body| && !p.IsTail() ==> a.regs[0].TheResult?)) &&
    (!Decided(p, i) ==> a.calls == Calls(p.body, i))
  }

  /** A copied value is never one the checker tracks. */
  ghost predicate CopyReady(p: Site, i: nat, a: SymState)
    requires |a.regs| == 11
  {
    p.IsLookup() ==>
      (i <= 1 ==> a.regs[1].Undefined? && a.calls == 0) &&
      (0 < i < |p.body| && p.body[i].op.Store? && IsCopyLoad(p.body[i - 1], p.body[i].op.size) ==> a.regs[1].Opaque? || a.regs[1].Undefined?)
  }

  ghost predicate Sound(p: Site, env: Env, i: nat, a: SymState, s: State, x: Facts) {
    SiteOk(p) && i <= |p.body| && Matches(p, env, a, s, x) && WalkOk(p, i, a) && Truthful(p, env, i, a, x) && CopyReady(p, i, a)
  }

  ghost predicate SameHigh(s: State, s': State) {
    |s.regs| == |s'.regs| == 11 && forall r | 6 <= r <= 10 :: s'.regs[r] == s.regs[r]
  }

  // ---------------------------------------------------------------- each instruction

  lemma {:induction false} StoreMatches(p: Site, env: Env, L: Loaded, i: nat, a: SymState, s: State, s': State, x: Facts)
    requires SiteOk(p) && i < |p.body| && p.body[i].op.Store? && Matches(p, env, a, s, x) && CopyReady(p, i, a)
    requires Stored(p, i, a).Ok? && Exec(env, L, s, p.body[i]) == Running(s')
    ensures Matches(p, env, Stored(p, i, a).value, s', x) && SameHigh(s, s')
  {
    var ins := p.body[i];
    StoreRuns(env, L, s, ins, s', x.d);
    assert Denotes(a.regs[ins.src], s.regs[ins.src], x);
    PutHolds(p, env, a.stack, s.mem, x, ins.off, ins.op.size, a.regs[ins.src], s.regs[ins.src]);
  }

  lemma {:induction false} StoreRuns(env: Env, L: Loaded, s: State, ins: Insn, s': State, d: nat)
    requires |s.regs| == 11 && ins.op.Store? && ins.dst == FP && s.regs[FP] == Ptr(Frame(d), 0) && Exec(env, L, s, ins) == Running(s')
    ensures s'.regs == s.regs && s'.calls == s.calls && s'.mem == StoreBytes(s.mem, Frame(d), ins.off, ins.op.size, s.regs[ins.src])
  {
  }

  lemma {:induction false} LoadMatches(p: Site, env: Env, L: Loaded, i: nat, a: SymState, s: State, s': State, x: Facts)
    requires SiteOk(p) && i < |p.body| && p.body[i].op.Load? && Matches(p, env, a, s, x)
    requires Reloaded(p, i, a).Ok? && Exec(env, L, s, p.body[i]) == Running(s')
    ensures Matches(p, env, Reloaded(p, i, a).value, s', x) && SameHigh(s, s')
  {
    var ins := p.body[i];
    assert s.regs[FP] == Ptr(Frame(x.d), 0);
    if ins.src == FP {
      assert CellHolds(p, env, a.stack[ins.off], s.mem, x, ins.off);
    }
  }

  lemma {:induction false} AluMatches(p: Site, env: Env, L: Loaded, i: nat, a: SymState, s: State, s': State, x: Facts)
    requires SiteOk(p) && i < |p.body| && p.body[i].op.Alu? && Matches(p, env, a, s, x)
    requires Computed(p, i, a).Ok? && Exec(env, L, s, p.body[i]) == Running(s')
    ensures Matches(p, env, Computed(p, i, a).value, s', x) && SameHigh(s, s')
  {
    var ins, a' := p.body[i], Computed(p, i, a).value;
    assert Denotes(a.regs[ins.dst], s.regs[ins.dst], x) && Denotes(a.regs[ins.src], s.regs[ins.src], x);
    assert Denotes(a'.regs[ins.dst], s'.regs[ins.dst], x);
  }

  lemma {:induction false} CallMatches(p: Site, env: Env, i: nat, a: SymState, s: State, s': State, x: Facts)
    requires SiteOk(p) && i < |p.body| && p.body[i].op.CallFunc? && Matches(p, env, a, s, x)
    requires Called(p, i, a).Ok? && HookRuns(p, s, s', x.d)
    ensures Matches(p, env, Called(p, i, a).value, s', x) && SameHigh(s, s')
  {
    IntactKeeps(p, env, a.stack, s.mem, s'.mem, x);
    var a' := Called(p, i, a).value;
    forall r | 0 <= r < 11
      ensures Denotes(a'.regs[r], s'.regs[r], x)
    {
      if r >= 6 { assert a'.regs[r] == a.regs[r]; }
    }
  }

  // ---------------------------------------------------------------- one move

  lemma {:induction false} OneCondition(body: seq<Insn>, i: nat, j: nat, n: nat)
    requires i < j < n <= |body| && IsCondition(body[i]) && IsCondition(body[j])
    ensures Conditions(body, n) >= 2
    decreases n
  {
    if j < n - 1 {
      OneCondition(body, i, j, n - 1);
    } else {
      SomeCondition(body, i, n - 1);
    }
  }

  lemma {:induction false} SomeCondition(body: seq<Insn>, i: nat, n: nat)
    requires i < n <= |body| && IsCondition(body[i])
    ensures Conditions(body, n) >= 1
    decreases n
  {
    if i < n - 1 {
      SomeCondition(body, i, n - 1);
    }
  }

  /** A lookup's postlude: the save, the branch on the result, and the restore at the end. */
  lemma {:induction false} LookupShape(p: Site, i: nat)
    requires StructureOk(p) && p.IsLookup() && i < |p.body|
    ensures |p.body| >= 3 && p.body[0].op.Store? && p.body[|p.body| - 1].op.Load?
    ensures p.body[i].op.Branch? <==> i == 1
  {
    if p.body[i].op.Branch? && i != 1 {
      OneCondition(p.body, if i < 1 then i else 1, if i < 1 then 1 else i, |p.body|);
    }
  }

  /** Only a lookup's postlude has unconditional jumps. */
  lemma {:induction false} NoPlainJump(body: seq<Insn>, n: nat)
    requires n <= |body|
    ensures Conditions(body, n) <= Branches(body, n)
    ensures Conditions(body, n) == Branches(body, n) ==> forall i | 0 <= i < n :: !IsJa(body[i])
    decreases n
  {
    if n > 0 {
      NoPlainJump(body, n - 1);
    }
  }

  /** Where a path may go from `i`, the branch is behind exactly as before, or has just been taken. */
  lemma {:induction false} DecidedFollows(p: Site, i: nat, j: nat)
    requires StructureOk(p) && i < j <= |p.body|
    ensures p.body[i].op.Branch? ==> Decided(p, j)
    ensures !p.body[i].op.Branch? && j == i + 1 ==> (Decided(p, j) <==> Decided(p, i))
    ensures IsJa(p.body[i]) ==> Decided(p, i) && Decided(p, j)
    ensures p.IsLookup() && i > 1 ==> Decided(p, i)
  {
    if p.IsLookup() {
      LookupShape(p, i);
      LookupShape(p, 1);
      assert p.body[1].op.Branch?;
    } else {
      NoPlainJump(p.body, |p.body|);
    }
  }

  lemma {:induction false} StraightReady(p: Site, env: Env, i: nat, a: SymState, x: Facts)
    requires SiteOk(p) && StructureOk(p) && i < |p.body| && |a.regs| == 11 && !IsJa(p.body[i]) && !p.body[i].op.Branch?
    requires Truthful(p, env, i, a, x) && CopyReady(p, i, a) && Straight(p, i, a).Ok?
    ensures Truthful(p, env, i + 1, Straight(p, i, a).value, x) && CopyReady(p, i + 1, Straight(p, i, a).value)
  {
    StraightTruthful(p, env, i, a, x);
    StraightCopyReady(p, i, a);
  }

  lemma {:induction false} StraightTruthful(p: Site, env: Env, i: nat, a: SymState, x: Facts)
    requires SiteOk(p) && StructureOk(p) && i < |p.body| && |a.regs| == 11 && !IsJa(p.body[i]) && !p.body[i].op.Branch?
    requires Truthful(p, env, i, a, x) && Straight(p, i, a).Ok?
    ensures Truthful(p, env, i + 1, Straight(p, i, a).value, x)
  {
    DecidedFollows(p, i, i + 1);
    StraightEffect(p, i, a);
    TruthfulFollows(p, env, i, a, Straight(p, i, a).value, x);
  }

  lemma {:induction false} StraightEffect(p: Site, i: nat, a: SymState)
    requires SiteOk(p) && i < |p.body| && |a.regs| == 11 && Straight(p, i, a).Ok?
    ensures var a' := Straight(p, i, a).value;
      a'.arm == a.arm && a'.calls == a.calls + (if p.body[i].op.CallFunc? then 1 else 0) &&
      (!p.body[i].op.CallFunc? && i + 1 < |p.body| ==> a'.regs[0] == a.regs[0])
  {
  }

  lemma {:induction false} TruthfulFollows(p: Site, env: Env, i: nat, a: SymState, a': SymState, x: Facts)
    requires i < |p.body| && |a.regs| == |a'.regs| == 11 && (Decided(p, i + 1) <==> Decided(p, i)) && Truthful(p, env, i, a, x)
    requires a'.arm == a.arm && a'.calls == a.calls + (if p.body[i].op.CallFunc? then 1 else 0)
    requires !p.body[i].op.CallFunc? && i + 1 < |p.body| ==> a'.regs[0] == a.regs[0]
    ensures Truthful(p, env, i + 1, a', x)
  {
  }

  lemma {:induction false} StraightCopyReady(p: Site, i: nat, a: SymState)
    requires SiteOk(p) && StructureOk(p) && i < |p.body| && |a.regs| == 11 && !IsJa(p.body[i]) && !p.body[i].op.Branch?
    requires CopyReady(p, i, a) && Straight(p, i, a).Ok?
    ensures CopyReady(p, i + 1, Straight(p, i, a).value)
  {
    if p.IsLookup() {
      LookupShape(p, i);
    }
  }

  lemma {:induction false} StraightMove(p: Site, env: Env, L: Loaded, x: Facts, base: int, a: SymState, q: Point, q': Point)
    requires StructureOk(p) && Sound(p, env, q.i, a, q.s, x) && Moves(p, env, L, x, base, q, q')
    requires !IsJa(p.body[q.i]) && !p.body[q.i].op.Branch?
    ensures Straight(p, q.i, a).Ok? && q'.i == q.i + 1 && SameHigh(q.s, q'.s)
    ensures Sound(p, env, q'.i, Straight(p, q.i, a).value, q'.s, x)
  {
    StraightWalks(p, q.i, a);
    StraightParts(p, env, L, x, base, a, Straight(p, q.i, a).value, q, q');
  }

  /** What a straight instruction leaves, apart from the walk that goes on. */
  lemma {:induction false} StraightParts(p: Site, env: Env, L: Loaded, x: Facts, base: int, a: SymState, a': SymState, q: Point, q': Point)
    requires SiteOk(p) && StructureOk(p) && Moves(p, env, L, x, base, q, q') && !IsJa(p.body[q.i]) && !p.body[q.i].op.Branch?
    requires Matches(p, env, a, q.s, x) && Truthful(p, env, q.i, a, x) && CopyReady(p, q.i, a) && Straight(p, q.i, a) == Ok(a')
    ensures q'.i == q.i + 1 && SameHigh(q.s, q'.s) && Matches(p, env, a', q'.s, x) && Truthful(p, env, q'.i, a', x) && CopyReady(p, q'.i, a')
  {
    StraightReady(p, env, q.i, a, x);
    StraightGoesOn(p, env, L, x, base, a, q, q');
    StraightMatches(p, env, L, x, base, a, q, q');
  }

  lemma {:induction false} StraightWalks(p: Site, i: nat, a: SymState)
    requires SiteOk(p) && i < |p.body| && |a.regs| == 11 && WalkOk(p, i, a) && !IsJa(p.body[i]) && !p.body[i].op.Branch?
    ensures Straight(p, i, a).Ok? && WalkOk(p, i + 1, Straight(p, i, a).value)
  {
  }

  lemma {:induction false} StraightGoesOn(p: Site, env: Env, L: Loaded, x: Facts, base: int, a: SymState, q: Point, q': Point)
    requires SiteOk(p) && Moves(p, env, L, x, base, q, q') && |a.regs| == 11 && Straight(p, q.i, a).Ok?
    ensures q'.i == q.i + 1
  {
  }

  lemma {:induction false} StraightMatches(p: Site, env: Env, L: Loaded, x: Facts, base: int, a: SymState, q: Point, q': Point)
    requires SiteOk(p) && Moves(p, env, L, x, base, q, q') && Matches(p, env, a, q.s, x) && CopyReady(p, q.i, a) && Straight(p, q.i, a).Ok?
    ensures Matches(p, env, Straight(p, q.i, a).value, q'.s, x) && SameHigh(q.s, q'.s)
  {
    match p.body[q.i].op {
      case Store(_) => StoreMatches(p, env, L, q.i, a, q.s, q'.s, x);
      case Load(_, _) => LoadMatches(p, env, L, q.i, a, q.s, q'.s, x);
      case Alu(_, _, _) => AluMatches(p, env, L, q.i, a, q.s, q'.s, x);
      case CallFunc => CallMatches(p, env, q.i, a, q.s, q'.s, x);
    }
  }

  lemma {:induction false} JumpMove(p: Site, env: Env, L: Loaded, x: Facts, base: int, a: SymState, q: Point, q': Point) returns (a': SymState)
    requires TestsZero(env) && StructureOk(p) && Sound(p, env, q.i, a, q.s, x) && Moves(p, env, L, x, base, q, q')
    requires IsJa(p.body[q.i]) || p.body[q.i].op.Branch?
    ensures Sound(p, env, q'.i, a', q'.s, x) && a'.calls == a.calls && a'.stack == a.stack && SameHigh(q.s, q'.s)
  {
    if p.body[q.i].op.Branch? {
      a' := BranchMove(p, env, L, x, base, a, q, q');
    } else {
      a' := a;
      JaMove(p, env, L, x, base, a, q, q');
    }
  }

  lemma {:induction false} JaMove(p: Site, env: Env, L: Loaded, x: Facts, base: int, a: SymState, q: Point, q': Point)
    requires StructureOk(p) && Sound(p, env, q.i, a, q.s, x) && Moves(p, env, L, x, base, q, q') && IsJa(p.body[q.i])
    ensures Sound(p, env, q'.i, a, q'.s, x) && SameHigh(q.s, q'.s)
  {
    if p.IsLookup() {
      LookupShape(p, q.i);
    }
    DecidedFollows(p, q.i, q'.i);
  }

  lemma {:induction false} BranchMove(p: Site, env: Env, L: Loaded, x: Facts, base: int, a: SymState, q: Point, q': Point) returns (a': SymState)
    requires TestsZero(env) && StructureOk(p) && Sound(p, env, q.i, a, q.s, x) && Moves(p, env, L, x, base, q, q')
    requires p.body[q.i].op.Branch?
    ensures Sound(p, env, q'.i, a', q'.s, x) && a'.calls == a.calls && a'.stack == a.stack && SameHigh(q.s, q'.s)
  {
    var ins := p.body[q.i];
    if p.IsLookup() {
      LookupShape(p, q.i);
    }
    var taken := env.cond(ins.op.test, ins.op.narrow, q.s.regs[ins.dst], Operand(ins, false, q.s.regs));
    a' := a.(arm := ArmAfter(p, ins, taken));
    assert Denotes(a.regs[0], q.s.regs[0], x);
    DecidedFollows(p, q.i, q'.i);
  }

  // ---------------------------------------------------------------- the fixed slots

  /** A symbol that stands for one value. */
  predicate Exact(a: Sym) {
    !a.Opaque? && !a.Undefined? && (a.FromReg? ==> 0 <= a.r < 10)
  }

  lemma {:induction false} ExactIsOne(a: Sym, v: Value, u: Value, x: Facts)
    requires Exact(a) && |x.init| == 10 && Denotes(a, v, x) && Denotes(a, u, x)
    ensures v == u
  {
  }

  predicate ExactState(a: SymState) {
    |a.regs| == 11 && (forall r | 0 <= r < 11 :: Exact(a.regs[r])) && (forall at | at in a.stack :: Exact(a.stack[at].v) && a.stack[at].width == 8)
  }

  lemma {:induction false} PreludeIsExact(p: Site, n: nat)
    requires SiteOk(p) && n <= |p.before|
    ensures ExactState(Prelude(p, n)) && (p.source.InSlot? && p.source.off >= p.floor ==> p.source.off in Prelude(p, n).stack)
    decreases n
  {
    if n > 0 {
      PreludeIsExact(p, n - 1);
      assert PreludeOk(p, p.before[n - 1]);
    }
  }

  predicate IsFixed(p: Site, at: int) {
    at == p.floor + SLOT_CONTEXT || at == p.floor + SLOT_KEY || at == p.floor + SLOT_MAP || (!p.IsLookup() && at == p.floor + SLOT_VALUE)
  }

  /** The walk never overwrites the saved context, key and map, nor outside a lookup the saved value. */
  ghost predicate Fixed(p: Site, a: SymState) {
    forall at | IsFixed(p, at) :: (at in a.stack <==> at in Start(p).stack) && (at in a.stack ==> a.stack[at] == Start(p).stack[at])
  }

  lemma {:induction false} StraightFixes(p: Site, i: nat, a: SymState)
    requires SiteOk(p) && i < |p.body| && |a.regs| == 11 && Straight(p, i, a).Ok? && Fixed(p, a) && WholeFixed(p)
    ensures Fixed(p, Straight(p, i, a).value)
  {
    if p.body[i].op.Store? {
      StoreFixes(p, i, a);
    } else {
      OthersKeepStack(p, i, a);
    }
  }

  lemma {:induction false} StoreFixes(p: Site, i: nat, a: SymState)
    requires SiteOk(p) && i < |p.body| && |a.regs| == 11 && p.body[i].op.Store? && Stored(p, i, a).Ok? && Fixed(p, a) && WholeFixed(p)
    ensures Fixed(p, Stored(p, i, a).value)
  {
  }

  lemma {:induction false} OthersKeepStack(p: Site, i: nat, a: SymState)
    requires SiteOk(p) && i < |p.body| && |a.regs| == 11 && !p.body[i].op.Store? && Straight(p, i, a).Ok?
    ensures forall at | IsFixed(p, at) :: at in Straight(p, i, a).value.stack <==> at in a.stack
    ensures forall at | IsFixed(p, at) && at in a.stack :: Straight(p, i, a).value.stack[at] == a.stack[at]
  {
  }

  ghost predicate WholeFixed(p: Site) {
    forall at | IsFixed(p, at) && at in Start(p).stack :: Start(p).stack[at].width == 8 && Exact(Start(p).stack[at].v)
  }

  lemma {:induction false} StartIsWhole(p: Site)
    requires SiteOk(p)
    ensures WholeFixed(p) && Fixed(p, Start(p))
  {
    PreludeIsExact(p, |p.before|);
  }

  /** A register that matches a fixed slot symbolically holds what the slot holds. */
  lemma {:induction false} SlotIsValue(p: Site, env: Env, a: SymState, s: State, x: Facts, at: int, r: Reg)
    requires Matches(p, env, a, s, x) && Fixed(p, a) && WholeFixed(p) && IsFixed(p, at) && |x.init| == 10 && SlotIs(a, at, a.regs[r])
    ensures s.regs[r] == SpillValue(env, s.mem, x, at)
  {
    assert CellHolds(p, env, a.stack[at], s.mem, x, at);
    ExactIsOne(a.regs[r], s.regs[r], SpillValue(env, s.mem, x, at), x);
  }

  // ---------------------------------------------------------------- the hook call

  ghost predicate RoleMeans(p: Site, env: Env, x: Facts, s: State, b: Binding, role: Role, v: Value) {
    match role
    case ArgCtx => v == SpillValue(env, s.mem, x, p.floor + SLOT_CONTEXT)
    case ArgSite => v == Num(Low32(b.sitePC))
    case ArgKey => v == SpillValue(env, s.mem, x, p.floor + SLOT_KEY)
    case ArgValue => v == x.result || (v.Ptr? && v.region == Frame(x.d) && v.off < p.floor + SLOT_MAP)
    case ArgMap => v == SpillValue(env, s.mem, x, p.floor + SLOT_MAP)
  }

  /** The call: the hook planned for the arm every path here is on, which for a lookup is the result's own; the
      saved context in R1; every planned argument. */
  ghost predicate HookCallOk(p: Site, env: Env, x: Facts, i: nat, s: State)
    requires SiteOk(p) && i < |p.body| && |s.regs| == 11
  {
    s.regs[1] == SpillValue(env, s.mem, x, p.floor + SLOT_CONTEXT) &&
    (p.floor + SLOT_CONTEXT in Start(p).stack && Start(p).stack[p.floor + SLOT_CONTEXT].v.TheContext? ==> s.regs[1] == x.ctx) &&
    CallsPlanned(p, env, x, i, s, ArmAt(p, env, x, i)) && (p.IsLookup() ==> Decided(p, i)) && GenericOk(p, env, x, s)
  }

  ghost predicate Saved(p: Site, slot: int) {
    p.floor + slot in Start(p).stack
  }

  /** `v` is what the prelude saved in the slot, if it saved anything: a register of the helper call, still. */
  ghost predicate IsSaved(p: Site, env: Env, x: Facts, s: State, slot: int, v: Value) {
    Saved(p, slot) ==>
      v == SpillValue(env, s.mem, x, p.floor + slot) &&
      var cell := Start(p).stack[p.floor + slot];
      cell.v.FromReg? && 0 <= cell.v.r < |x.init| ==> v == x.init[cell.v.r]
  }

  /** The concrete R3-R5 of a generic hook.  A tail call dispatches on the key slot's address and the saved map.  Where
      the helper's own map is saved: the helper's key, value and result, by helper id (1 and 195 look up, 2 updates,
      3 deletes, 87 to 89 push, pop and peek), and its map. */
  ghost predicate GenericOk(p: Site, env: Env, x: Facts, s: State)
    requires |s.regs| == 11
  {
    Saved(p, -32) ==>
      if p.helper == 12 then s.regs[3] == Ptr(Frame(x.d), p.floor - 16) && s.regs[4] == Num(0) && IsSaved(p, env, x, s, -32, s.regs[5])
      else if Start(p).stack[p.floor - 32].v == FromReg(1) then
        IsSaved(p, env, x, s, -32, s.regs[5]) && (|x.init| == 10 ==> s.regs[5] == x.init[1]) &&
        (p.helper == 1 || p.helper == 195 ==> IsSaved(p, env, x, s, -16, s.regs[3]) && s.regs[4] == x.result) &&
        (p.helper == 2 ==> IsSaved(p, env, x, s, -16, s.regs[3]) && IsSaved(p, env, x, s, -40, s.regs[4])) &&
        (p.helper == 3 ==> IsSaved(p, env, x, s, -16, s.regs[3]) && s.regs[4] == Num(0)) &&
        (87 <= p.helper <= 89 ==> s.regs[3] == Num(0) && IsSaved(p, env, x, s, -16, s.regs[4]))
      else true
  }

  /** A register that the walk says holds a fixed slot holds what was saved there. */
  lemma {:induction false} ArgIsSaved(p: Site, env: Env, a: SymState, s: State, x: Facts, slot: int, r: Reg)
    requires Matches(p, env, a, s, x) && Fixed(p, a) && WholeFixed(p) && IsFixed(p, p.floor + slot) && |x.init| == 10
    requires a.regs[r] == StackAt(a, p.floor + slot)
    ensures IsSaved(p, env, x, s, slot, s.regs[r])
  {
    if Saved(p, slot) {
      SlotIsValue(p, env, a, s, x, p.floor + slot, r);
      assert Denotes(a.regs[r], s.regs[r], x);
    }
  }

  lemma {:induction false} GenericHolds(p: Site, env: Env, a: SymState, s: State, x: Facts)
    requires Matches(p, env, a, s, x) && Fixed(p, a) && WholeFixed(p) && |x.init| == 10 && GenericArgs(p, a)
    ensures GenericOk(p, env, x, s)
  {
    if Saved(p, -32) {
      assert IsFixed(p, p.floor + SLOT_MAP) && IsFixed(p, p.floor + SLOT_KEY);
      assert forall r | 3 <= r <= 5 :: Denotes(a.regs[r], s.regs[r], x);
      if p.IsTail() {
        ArgIsSaved(p, env, a, s, x, SLOT_MAP, 5);
      } else if Start(p).stack[p.floor - 32].v == FromReg(1) {
        ArgIsSaved(p, env, a, s, x, SLOT_MAP, 5);
        KeyAndValue(p, env, a, s, x);
      }
    }
  }

  lemma {:induction false} KeyAndValue(p: Site, env: Env, a: SymState, s: State, x: Facts)
    requires Matches(p, env, a, s, x) && Fixed(p, a) && WholeFixed(p) && |x.init| == 10
    ensures a.regs[3] == StackAt(a, p.floor + SLOT_KEY) ==> IsSaved(p, env, x, s, -16, s.regs[3])
    ensures a.regs[4] == StackAt(a, p.floor + SLOT_KEY) ==> IsSaved(p, env, x, s, -16, s.regs[4])
    ensures !p.IsLookup() && a.regs[4] == StackAt(a, p.floor + SLOT_VALUE) ==> IsSaved(p, env, x, s, -40, s.regs[4])
  {
    if a.regs[3] == StackAt(a, p.floor + SLOT_KEY) {
      ArgIsSaved(p, env, a, s, x, SLOT_KEY, 3);
    }
    if a.regs[4] == StackAt(a, p.floor + SLOT_KEY) {
      ArgIsSaved(p, env, a, s, x, SLOT_KEY, 4);
    }
    if !p.IsLookup() && a.regs[4] == StackAt(a, p.floor + SLOT_VALUE) {
      ArgIsSaved(p, env, a, s, x, SLOT_VALUE, 4);
    }
  }

  ghost predicate CallsPlanned(p: Site, env: Env, x: Facts, i: nat, s: State, arm: When)
    requires SiteOk(p) && i < |p.body| && |s.regs| == 11
  {
    BindingFor(p, arm).Ok? &&
    var b := BindingFor(p, arm).value;
    b.hook == p.hooks[i] &&
    (b.args.Planned? ==> |b.args.roles| <= 5 && forall k | 0 <= k < |b.args.roles| :: RoleMeans(p, env, x, s, b, b.args.roles[k], s.regs[1 + k]))
  }

  lemma {:induction false} RoleHolds(p: Site, env: Env, a: SymState, s: State, x: Facts, b: Binding, role: Role, r: Reg)
    requires Matches(p, env, a, s, x) && Fixed(p, a) && WholeFixed(p) && |x.init| == 10 && RoleOk(p, a, b, role, a.regs[r])
    ensures RoleMeans(p, env, x, s, b, role, s.regs[r])
  {
    assert Denotes(a.regs[r], s.regs[r], x);
    match role {
      case ArgCtx => SlotIsValue(p, env, a, s, x, p.floor + SLOT_CONTEXT, r);
      case ArgKey => SlotIsValue(p, env, a, s, x, p.floor + SLOT_KEY, r);
      case ArgMap => SlotIsValue(p, env, a, s, x, p.floor + SLOT_MAP, r);
      case ArgSite =>
      case ArgValue =>
    }
  }

  lemma {:induction false} CallIsPlanned(p: Site, env: Env, i: nat, a: SymState, s: State, x: Facts)
    requires StructureOk(p) && Sound(p, env, i, a, s, x) && i < |p.body| && p.body[i].op.CallFunc? && Fixed(p, a) && WholeFixed(p) && |x.init| == 10
    ensures HookCallOk(p, env, x, i, s) && a.calls == 0
  {
    assert Called(p, i, a).Ok?;
    DecidedFollows(p, i, i + 1);
    if p.IsLookup() {
      LookupShape(p, i);
    }
    GenericHolds(p, env, a, s, x);
    SlotIsValue(p, env, a, s, x, p.floor + SLOT_CONTEXT, 1);
    assert Denotes(a.regs[1], s.regs[1], x);
    var b := BindingFor(p, a.arm).value;
    if b.args.Planned? {
      forall k | 0 <= k < |b.args.roles|
        ensures RoleMeans(p, env, x, s, b, b.args.roles[k], s.regs[1 + k])
      {
        RoleHolds(p, env, a, s, x, b, b.args.roles[k], 1 + k);
      }
    }
  }

  // ---------------------------------------------------------------- whole paths

  ghost predicate IsPath(p: Site, env: Env, L: Loaded, x: Facts, base: int, path: seq<Point>) {
    path != [] && path[0].i == 0 && forall n | 0 <= n < |path| - 1 :: MovesAt(p, env, L, x, base, path, n)
  }

  ghost predicate MovesAt(p: Site, env: Env, L: Loaded, x: Facts, base: int, path: seq<Point>, n: nat)
    requires n + 1 < |path|
  {
    Moves(p, env, L, x, base, path[n], path[n + 1])
  }

  /** Hook calls made before point `n`. */
  ghost function CallsMade(p: Site, path: seq<Point>, n: nat): nat
    requires n <= |path|
  {
    if n == 0 then 0
    else CallsMade(p, path, n - 1) + (if path[n - 1].i < |p.body| && p.body[path[n - 1].i].op.CallFunc? then 1 else 0)
  }

  lemma {:induction false} MoveIsSound(p: Site, env: Env, L: Loaded, x: Facts, base: int, a: SymState, q: Point, q': Point) returns (a': SymState)
    requires TestsZero(env) && StructureOk(p) && WholeFixed(p) && Fixed(p, a)
    requires Sound(p, env, q.i, a, q.s, x) && Moves(p, env, L, x, base, q, q')
    ensures Sound(p, env, q'.i, a', q'.s, x) && SameHigh(q.s, q'.s) && Fixed(p, a')
    ensures a'.calls == a.calls + (if p.body[q.i].op.CallFunc? then 1 else 0)
  {
    if IsJa(p.body[q.i]) || p.body[q.i].op.Branch? {
      a' := JumpMove(p, env, L, x, base, a, q, q');
    } else {
      a' := StraightSound(p, env, L, x, base, a, q, q');
    }
  }

  lemma {:induction false} StraightSound(p: Site, env: Env, L: Loaded, x: Facts, base: int, a: SymState, q: Point, q': Point) returns (a': SymState)
    requires StructureOk(p) && WholeFixed(p) && Fixed(p, a) && Sound(p, env, q.i, a, q.s, x) && Moves(p, env, L, x, base, q, q')
    requires !IsJa(p.body[q.i]) && !p.body[q.i].op.Branch?
    ensures Sound(p, env, q'.i, a', q'.s, x) && SameHigh(q.s, q'.s) && Fixed(p, a')
    ensures a'.calls == a.calls + (if p.body[q.i].op.CallFunc? then 1 else 0)
  {
    StraightMove(p, env, L, x, base, a, q, q');
    a' := Straight(p, q.i, a).value;
    StraightFixes(p, q.i, a);
    StraightEffect(p, q.i, a);
  }

  lemma {:induction false} StartIsSound(p: Site, env: Env, s: State, x: Facts)
    requires Accepted(p) && Matches(p, env, Start(p), s, x)
    ensures Sound(p, env, 0, Start(p), s, x) && Fixed(p, Start(p)) && Start(p).calls == 0
  {
    StartIsWhole(p);
  }

  lemma {:induction false} PathStep(p: Site, env: Env, L: Loaded, x: Facts, base: int, path: seq<Point>, n: nat, a: SymState) returns (a': SymState)
    requires TestsZero(env) && StructureOk(p) && WholeFixed(p) && Fixed(p, a) && n + 1 < |path| && MovesAt(p, env, L, x, base, path, n)
    requires Sound(p, env, path[n].i, a, path[n].s, x) && a.calls == CallsMade(p, path, n) && SameHigh(path[0].s, path[n].s)
    ensures Sound(p, env, path[n + 1].i, a', path[n + 1].s, x) && Fixed(p, a') && a'.calls == CallsMade(p, path, n + 1)
    ensures SameHigh(path[0].s, path[n + 1].s)
  {
    a' := MoveIsSound(p, env, L, x, base, a, path[n], path[n + 1]);
  }

  lemma {:induction false} PathIsSound(p: Site, env: Env, L: Loaded, x: Facts, base: int, path: seq<Point>, n: nat) returns (a: SymState)
    requires TestsZero(env) && Accepted(p) && IsPath(p, env, L, x, base, path) && n < |path|
    requires Matches(p, env, Start(p), path[0].s, x)
    ensures Sound(p, env, path[n].i, a, path[n].s, x) && Fixed(p, a) && a.calls == CallsMade(p, path, n) && SameHigh(path[0].s, path[n].s)
    decreases n
  {
    if n == 0 {
      a := Start(p);
      StartIsSound(p, env, path[0].s, x);
    } else {
      StartIsWhole(p);
      var before := PathIsSound(p, env, L, x, base, path, n - 1);
      a := PathStep(p, env, L, x, base, path, n - 1, before);
    }
  }

  /** Instructions a postlude is made of: none but these stores writes memory. */
  predicate Observes(p: Site, ins: Insn) {
    ins.op.Load? || ins.op.Alu? || ins.op.CallFunc? || IsJa(ins) || ins.op.Branch? ||
    (ins.op.Store? && ins.dst == FP && STACK_BOTTOM <= ins.off && ins.off + ins.op.size <= p.floor)
  }

  /** The end of a path: the result is back in R0, and exactly one hook was called, unless the postlude branched on
      the result and the plan does not name the arm the result is on. */
  ghost predicate EndsWell(p: Site, env: Env, x: Facts, s: State, calls: nat)
    requires |s.regs| == 11
  {
    (!p.IsTail() ==> s.regs[0] == x.result) &&
    (calls == 1 || (calls == 0 && Decided(p, |p.body|) && !IsPlanned(p, ResultArm(p, env, x))))
  }

  /** Whenever the checker accepts a site, every concrete path through its postlude is safe at every point. */
  lemma {:induction false} PostludeIsSafe(p: Site, env: Env, L: Loaded, x: Facts, base: int, pre: seq<State>, path: seq<Point>, n: nat)
    requires TestsZero(env) && Accepted(p) && IsPath(p, env, L, x, base, path) && n < |path|
    requires RunsPrelude(p, env, L, pre) && AtSite(p, env, pre[0], x) && Returned(p, pre[|p.before|], path[0].s, x)
    ensures SameHigh(path[0].s, path[n].s) && CallsMade(p, path, n) <= 1 && path[n].i <= |p.body|
    ensures path[n].i < |p.body| ==> Observes(p, p.body[path[n].i])
    ensures path[n].i < |p.body| && p.body[path[n].i].op.CallFunc? ==> CallsMade(p, path, n) == 0 && HookCallOk(p, env, x, path[n].i, path[n].s)
    ensures path[n].i == |p.body| ==> EndsWell(p, env, x, path[n].s, CallsMade(p, path, n))
  {
    StartMatches(p, env, L, pre, path[0].s, x);
    StartIsWhole(p);
    var a := PathIsSound(p, env, L, x, base, path, n);
    AtMostOnce(p, env, L, x, base, path, n);
    if path[n].i < |p.body| {
      PointObserves(p, env, path[n].i, a, path[n].s, x);
      if p.body[path[n].i].op.CallFunc? {
        CallIsPlanned(p, env, path[n].i, a, path[n].s, x);
      }
    } else {
      EndIsWell(p, env, a, path[n].s, x);
    }
  }

  lemma {:induction false} AtMostOnce(p: Site, env: Env, L: Loaded, x: Facts, base: int, path: seq<Point>, n: nat)
    requires TestsZero(env) && Accepted(p) && IsPath(p, env, L, x, base, path) && n < |path|
    requires Matches(p, env, Start(p), path[0].s, x)
    ensures CallsMade(p, path, n) <= 1
    decreases n
  {
    if n > 0 {
      AtMostOnce(p, env, L, x, base, path, n - 1);
      var a := PathIsSound(p, env, L, x, base, path, n - 1);
      assert MovesAt(p, env, L, x, base, path, n - 1);
      if p.body[path[n - 1].i].op.CallFunc? {
        NotCalledYet(p, env, path[n - 1].i, a, path[n - 1].s, x);
      }
    }
  }

  lemma {:induction false} NotCalledYet(p: Site, env: Env, i: nat, a: SymState, s: State, x: Facts)
    requires Sound(p, env, i, a, s, x) && i < |p.body| && p.body[i].op.CallFunc?
    ensures a.calls == 0
  {
    assert Called(p, i, a).Ok?;
  }

  lemma {:induction false} PointObserves(p: Site, env: Env, i: nat, a: SymState, s: State, x: Facts)
    requires Sound(p, env, i, a, s, x) && i < |p.body|
    ensures Observes(p, p.body[i])
  {
  }

  lemma {:induction false} EndIsWell(p: Site, env: Env, a: SymState, s: State, x: Facts)
    requires StructureOk(p) && Sound(p, env, |p.body|, a, s, x) && a.calls <= 1
    ensures EndsWell(p, env, x, s, a.calls)
  {
    assert Denotes(a.regs[0], s.regs[0], x);
    if p.IsLookup() {
      LookupShape(p, 1);
      assert p.body[1].op.Branch?;
    }
  }
}
