/** The runs the context tracker is about: the machine, the aliases helpers may keep of a frame they were given,
    and what the kernel verifier guarantees of every step. */
module CtxKernel {
  import opened Machine
  import opened CtxDomain
  import opened CtxAnalyze
  import opened CtxMeaning
  import FrameSound

  /** A machine state with, per live frame, the lowest offset of it the function gave to a helper. */
  datatype Config = Config(s: State, low: seq<int>)

  ghost function FramesIn(args: seq<Value>): set<nat> {
    set i | 0 <= i < |args| && args[i].Ptr? && args[i].region.Frame? :: args[i].region.depth
  }

  function LowAfter(low: int, args: seq<Value>, e: nat): (r: int)
    ensures r <= low
    ensures DEEPEST <= low ==> DEEPEST <= r
  {
    if args == [] then low
    else
      var v, rest := args[|args| - 1], LowAfter(low, args[..|args| - 1], e);
      if v.Ptr? && v.region == Frame(e) && v.off < rest then (if v.off < DEEPEST then Min(rest, DEEPEST) else v.off) else rest
  }

  predicate IsExternal(ins: Insn) {
    ins.op.CallHelper? || ins.op.CallKfunc?
  }

  // ---------------------------------------------------------------- what the kernel guarantees

  /** The frames a suspended helper may still hand to its callback, and which calls may run one at all. */
  datatype Grants = Grants(of: int -> set<nat>, runs: Insn -> bool)

  /** Kernel writes: only data, and in a live frame only above its low mark or where a pointer reaches. */
  ghost predicate KernelWrites(m: Memory, m': Memory, low: seq<int>, reach: set<nat>) {
    forall r: Region, o: int :: m'(r, o) == m(r, o) ||
      (!Tracked(m'(r, o).v) && (r.Frame? && r.depth < |low| ==> o >= low[r.depth] || r.depth in reach))
  }

  ghost predicate ArgsFrom(args: seq<Value>, reach: set<nat>) {
    forall i | 0 <= i < |args| && Tracked(args[i]) :: args[i].Ptr? && args[i].region.Frame? && args[i].region.depth in reach
  }

  /** A callback starts at a function whose address the program takes; that is never the entry. */
  ghost predicate CallbackAt(w: Flow, pc: int) {
    exists f | 0 < f < |w.fns| :: w.fns[f].lo < |w.p| && IsCallback(w, w.fns[f].lo) && pc == Slot(w.p, w.fns[f].lo)
  }

  /** A result points into the stack only where a pointer the call was given reaches, and then as an alias of a
      waiting caller's buffer; an alias of the caller's own buffer is no stack pointer to the verifier, and what is
      written through it is `AliasWrites`. */
  ghost predicate ResultLaw(r0: Value, low: seq<int>, reach: set<nat>) {
    Tracked(r0) ==> r0.region.depth in reach && r0.region.depth != |low| - 1
  }

  ghost predicate OutLaw(w: Flow, L: Loaded, grants: Grants, out: ExtOut, m: Memory, low: seq<int>, writes: set<nat>, reach: set<nat>) {
    match out
    case Done(r0, m') => ResultLaw(r0, low, reach) && KernelWrites(m, m', low, writes)
    case Leave(r0, m') => !Tracked(r0) && KernelWrites(m, m', low, writes)
    case Invoke(code, args, m', token) =>
      KernelWrites(m, m', low, writes) && ArgsFrom(args, reach) && grants.of(token) <= reach && CallbackAt(w, L.at(code))
  }

  /** A helper writes its caller's frame only above the low mark; a legacy load touches no frame. */
  ghost predicate ExtLaw(env: Env, w: Flow, L: Loaded, grants: Grants, call: ExtCall, m: Memory, low: seq<int>)
    requires low != []
  {
    var out := env.ext(call, m);
    OutLaw(w, L, grants, out, m, low, FramesIn(call.args) - {|low| - 1}, FramesIn(call.args)) &&
    (call.kind == Legacy ==> (out.Done? ==> !Tracked(out.r0)) && KernelWrites(m, out.mem, [], {}) && forall r: Region, o: int | r.Frame? :: out.mem(r, o) == m(r, o))
  }

  /** No function returns a pointer into its own frame, and a resumed helper reaches only what it was given. */
  ghost predicate ReturnLaw(env: Env, w: Flow, L: Loaded, grants: Grants, calls: seq<Saved>, r0: Value, m: Memory, low: seq<int>)
    requires low != []
  {
    !PointsInto(r0, |calls|) &&
    (calls != [] && calls[|calls| - 1].resume.Token? ==>
      var k := calls[|calls| - 1].resume.k;
      OutLaw(w, L, grants, env.resume(k, r0, m), m, low[..|low| - 1], grants.of(k), grants.of(k)))
  }

  ghost predicate LoadLaw(env: Env, m: Memory, p: Value, off: int, size: nat, signed: bool, d: nat)
    requires p.Ptr?
  {
    1 <= size <= 8 && (signed ==> size < 8) && (p.region == Frame(d) ==> DEEPEST <= p.off + off && p.off + off + size <= 0)
  }

  ghost predicate StoreLaw(p: Value, off: int, size: nat, v: Value, d: nat)
    requires p.Ptr?
  {
    1 <= size <= 8 && if p.region == Frame(d) then OwnStoreOk(p.off + off, size, v) else !Tracked(v)
  }

  ghost predicate AtomicLaw(env: Env, s: State, ins: Insn, d: nat)
    requires |s.regs| == 11 && ins.op.Atomic? && s.regs[ins.dst].Ptr?
  {
    var p := s.regs[ins.dst];
    var was := LoadBytes(env, s.mem, p.region, p.off + ins.off, ins.op.size, false);
    var v := env.atomic(ins.op.code, ins.op.size, was, s.regs[ins.src], s.regs[0]);
    LoadLaw(env, s.mem, p, ins.off, ins.op.size, false, d) && StoreLaw(p, ins.off, ins.op.size, v, d) &&
    (Tracked(v) ==> v == was || v == s.regs[ins.src] || v == s.regs[0])
  }

  /** A call gives a global function the context where its prototype has one. */
  ghost predicate CallLaw(w: Flow, regs: seq<Value>, i: nat)
    requires |regs| == 11 && i < |w.p|
  {
    forall f | 0 <= f < |w.fns| && w.fns[f].lo == Callee(w, i) && w.fns[f].isGlobal && 0 <= w.fns[f].param < 5 ::
      regs[1 + w.fns[f].param] == CTX
  }

  ghost function LowNow(env: Env, c: Config, ins: Insn): (low: seq<int>)
    requires |c.s.regs| == 11 && |c.low| == |c.s.calls| + 1
    ensures |low| == |c.low|
  {
    var d := |c.s.calls|;
    if IsExternal(ins) then c.low[d := LowAfter(c.low[d], CallOut(env, ins, c.s.regs).args, d)] else c.low
  }

  ghost predicate Law(env: Env, w: Flow, L: Loaded, grants: Grants, c: Config, i: nat)
    requires |c.s.regs| == 11 && |c.low| == |c.s.calls| + 1 && i < |w.p|
  {
    var s, d, ins := c.s, |c.s.calls|, w.p[i];
    match ins.op
    case Load(size, signed) => s.regs[ins.src].Ptr? ==> LoadLaw(env, s.mem, s.regs[ins.src], ins.off, size, signed, d)
    case StoreImm(size) => s.regs[ins.dst].Ptr? ==> StoreLaw(s.regs[ins.dst], ins.off, size, Num(ins.imm), d)
    case Store(size) => s.regs[ins.dst].Ptr? ==> StoreLaw(s.regs[ins.dst], ins.off, size, s.regs[ins.src], d)
    case Atomic(_, _, _) => s.regs[ins.dst].Ptr? ==> AtomicLaw(env, s, ins, d)
    case LoadImm64(isMap) => !Tracked(env.literal(isMap, ins.ref, ins.imm))
    case CallFunc => CallLaw(w, s.regs, i)
    case CallHelper => CallOutLaw(env, w, L, grants, c, ins)
    case CallKfunc => CallOutLaw(env, w, L, grants, c, ins)
    case LoadLegacy => CallOutLaw(env, w, L, grants, c, ins)
    case Exit => ReturnLaw(env, w, L, grants, s.calls, s.regs[0], s.mem, c.low)
    case _ => true
  }

  ghost predicate CallOutLaw(env: Env, w: Flow, L: Loaded, grants: Grants, c: Config, ins: Insn)
    requires |c.s.regs| == 11 && |c.low| == |c.s.calls| + 1
  {
    var call, low := CallOut(env, ins, c.s.regs), LowNow(env, c, ins);
    var out := env.ext(call, c.s.mem);
    ExtLaw(env, w, L, grants, call, c.s.mem, low) && (out.Invoke? ==> IsExternal(ins) && grants.runs(ins)) &&
    (out.Leave? ==> ReturnLaw(env, w, L, grants, c.s.calls, out.r0, out.mem, low))
  }

  // ---------------------------------------------------------------- steps

  /** A store that does not go through a pointer to the function's own frame may go through a kept alias. */
  ghost predicate StoresElsewhere(s: State, ins: Insn)
    requires |s.regs| == 11
  {
    (ins.op.Store? || ins.op.StoreImm? || ins.op.Atomic?) && !PointsInto(s.regs[ins.dst], |s.calls|)
  }

  ghost predicate AliasWrites(m: Memory, m': Memory, low: seq<int>) {
    forall r: Region, o: int :: m'(r, o) == m(r, o) || (r.Frame? && r.depth < |low| && o >= low[r.depth] && !Tracked(m'(r, o).v))
  }

  /** Whether the step starts a new activation in the frame the old one left: a callback run once more. */
  ghost predicate Restarts(env: Env, L: Loaded, s: State, s1: State) {
    FrameSound.Ends(env, L, s, |s.calls|) && |s1.calls| == |s.calls|
  }

  ghost function NextLow(low: seq<int>, d: nat, d': nat, restarts: bool): seq<int>
    requires |low| == d + 1
  {
    if d' > d then low + [0] else if restarts then low[..d] + [0] else low[..d' + 1]
  }

  ghost predicate FreshFrame(m: Memory, e: nat) {
    forall o: int :: !Tracked(m(Frame(e), o).v)
  }

  /** What a new frame still holds of earlier activations is data to the new one. */
  ghost predicate Refreshed(m: Memory, m': Memory, e: nat) {
    FreshFrame(m', e) && forall r: Region, o: int | r != Frame(e) :: m'(r, o) == m(r, o)
  }

  /** One step of a verified program. */
  ghost predicate Next(env: Env, w: Flow, L: Loaded, grants: Grants, c: Config, c': Config) {
    |c.s.regs| == 11 && |c.low| == |c.s.calls| + 1 &&
    var o, d, d', i := Step(env, L, c.s), |c.s.calls|, |c'.s.calls|, IndexOf(w.p, c.s.pc);
    o.Running? && i >= 0 && Law(env, w, L, grants, c, i) &&
    c'.s == o.s.(mem := c'.s.mem) &&
    (if StoresElsewhere(c.s, w.p[i]) then AliasWrites(o.s.mem, c'.s.mem, c.low)
     else if d' > d || Restarts(env, L, c.s, o.s) then Refreshed(o.s.mem, c'.s.mem, d')
     else c'.s.mem == o.s.mem) &&
    c'.low == NextLow(LowNow(env, c, w.p[i]), d, d', Restarts(env, L, c.s, o.s))
  }

  /** The shape the verifier demands of the program: functions are self-contained and call function starts, never
      the entry. */
  ghost predicate Verified(w: Flow) {
    FlowOk(w) && (forall f | 0 <= f < |w.fns| :: FrameSound.Contained(w.p, w.fns[f].lo, w.fns[f].hi)) &&
    forall i | 0 <= i < |w.p| && w.p[i].op.CallFunc? :: w.p[i].off == 0 && CallsFunction(w, i)
  }

  ghost predicate CallsFunction(w: Flow, i: nat)
    requires i < |w.p|
  {
    exists f | 0 < f < |w.fns| :: w.fns[f].lo == Callee(w, i)
  }
}
