/** The offline checker's backward register liveness and why it may be trusted. */
module Liveness {
  import opened Machine
  import opened Agreement

  type Sets = seq<set<Reg>>

  // ---------------------------------------------------------------- edges

  function CountSym(p: seq<Insn>, name: string, n: nat): nat
    requires n <= |p|
  {
    if n == 0 then 0 else CountSym(p, name, n - 1) + (if p[n - 1].sym == name then 1 else 0)
  }

  predicate IsFuncRef(ins: Insn) {
    ins.op.CallFunc? || ins.op.LoadFunc?
  }

  /** The instruction index an edge leads to; symbolic edges must be unresolved and unique. */
  function Edge(p: seq<Insn>, i: nat): Result<nat>
    requires i < |p|
  {
    var ins := p[i];
    if ins.ref != "" then
      if (if IsFuncRef(ins) then ins.imm else ins.off) != -1 then Refused(AlreadyResolved)
      else if CountSym(p, ins.ref, |p|) > 1 then Refused(Ambiguous)
      else
        var j := FindSym(p, ins.ref);
        if j < 0 then Refused(Unresolved) else Ok(j)
    else
      var j := IndexOf(p, Target(p, Slot(p, i), ins));
      if j < 0 then Refused(NotABoundary) else Ok(j)
  }

  lemma {:induction false} EdgeIsTarget(p: seq<Insn>, i: nat)
    requires i < |p| && Edge(p, i).Ok?
    ensures IndexOf(p, Target(p, Slot(p, i), p[i])) == Edge(p, i).value
    ensures Edge(p, i).value < |p|
  {
    if p[i].ref != "" {
      IndexOfSlot(p, FindSym(p, p[i].ref));
    }
  }

  predicate IsJump(ins: Insn) {
    ins.op.Goto? || ins.op.GotoLong? || ins.op.GotoIndirect? || ins.op.Branch?
  }

  predicate FallsThrough(ins: Insn) {
    !(ins.op.Goto? || ins.op.GotoLong? || ins.op.GotoIndirect? || ins.op.Exit?)
  }

  predicate EdgesResolve(p: seq<Insn>) {
    forall i | 0 <= i < |p| && (IsJump(p[i]) || p[i].op.CallFunc?) :: Edge(p, i).Ok?
  }

  // ---------------------------------------------------------------- transfer

  /** What the checker counts as read.  A call to another function reads what the callee has live. */
  function Reads(arity: int -> int, ins: Insn): set<Reg> {
    match ins.op
    case Alu(_, op, fromReg) => (if op.Mov? then {} else {ins.dst}) + (if fromReg then {ins.src} else {})
    case LoadLegacy => AllRegs
    case Atomic(_, _, _) => {ins.dst, ins.src}
    case _ => Uses(ArityOf(arity, ins), ins)
  }

  function Writes(ins: Insn): set<Reg> {
    if ins.op.LoadLegacy? then {ins.dst} else Defs(ins)
  }

  /** One instruction's equation: what it reads and writes, its successors, and its callee if
      it calls another function (-1 otherwise). */
  datatype Node = Node(uses: set<Reg>, writes: set<Reg>, succ: seq<nat>, callee: int)

  function NodeOf(p: seq<Insn>, arity: int -> int, i: nat): Node
    requires i < |p| && EdgesResolve(p)
  {
    Node(Reads(arity, p[i]), Writes(p[i]),
         (if IsJump(p[i]) then [Edge(p, i).value] else []) + (if FallsThrough(p[i]) then [i + 1] else []),
         if p[i].op.CallFunc? then Edge(p, i).value else -1)
  }

  predicate WellScoped(g: seq<Node>) {
    forall i | 0 <= i < |g| :: g[i].callee <= |g| && forall j | 0 <= j < |g[i].succ| :: g[i].succ[j] <= |g|
  }

  function Join(live: Sets, succ: seq<nat>): set<Reg>
    requires forall j | 0 <= j < |succ| :: succ[j] < |live|
  {
    if succ == [] then {} else live[succ[0]] + Join(live, succ[1..])
  }

  function Transfer(g: seq<Node>, live: Sets, i: nat): set<Reg>
    requires i < |g| && WellScoped(g) && |live| == |g| + 1
  {
    (if g[i].callee >= 0 then live[g[i].callee] * Args else g[i].uses) + (Join(live, g[i].succ) - g[i].writes)
  }

  predicate Shape(g: seq<Node>, live: Sets) {
    WellScoped(g) && |live| == |g| + 1 && live[|g|] == {}
  }

  predicate Solves(g: seq<Node>, live: Sets, i: nat)
    requires i < |g| && Shape(g, live)
  {
    live[i] == Transfer(g, live, i)
  }

  predicate Covers(g: seq<Node>, live: Sets, i: nat)
    requires i < |g| && Shape(g, live)
  {
    Transfer(g, live, i) <= live[i]
  }

  predicate Within(g: seq<Node>, live: Sets, i: nat)
    requires i < |g| && Shape(g, live)
  {
    live[i] <= Transfer(g, live, i)
  }

  predicate IsFixpoint(g: seq<Node>, live: Sets) {
    Shape(g, live) && forall i | 0 <= i < |g| :: Solves(g, live, i)
  }

  predicate IsPostFixpoint(g: seq<Node>, live: Sets) {
    Shape(g, live) && forall i | 0 <= i < |g| :: Covers(g, live, i)
  }

  predicate IsPreFixpoint(g: seq<Node>, live: Sets) {
    Shape(g, live) && forall i | 0 <= i < |g| :: Within(g, live, i)
  }

  predicate Below(a: Sets, b: Sets) {
    |a| == |b| && forall i | 0 <= i < |a| :: a[i] <= b[i]
  }

  lemma {:induction false} JoinMonotone(a: Sets, b: Sets, succ: seq<nat>)
    requires Below(a, b) && forall j | 0 <= j < |succ| :: succ[j] < |a|
    ensures Join(a, succ) <= Join(b, succ)
    decreases |succ|
  {
    if succ != [] {
      JoinMonotone(a, b, succ[1..]);
    }
  }

  lemma {:induction false} JoinContains(live: Sets, succ: seq<nat>, j: nat)
    requires j < |succ| && forall k | 0 <= k < |succ| :: succ[k] < |live|
    ensures live[succ[j]] <= Join(live, succ)
    decreases |succ|
  {
    if j > 0 {
      JoinContains(live, succ[1..], j - 1);
    }
  }

  lemma {:induction false} TransferMonotone(g: seq<Node>, a: Sets, b: Sets, i: nat)
    requires i < |g| && WellScoped(g) && |a| == |g| + 1 && Below(a, b)
    ensures Transfer(g, a, i) <= Transfer(g, b, i)
  {
    JoinMonotone(a, b, g[i].succ);
  }

  // ---------------------------------------------------------------- the iteration

  /** How far the sets can still grow within `all`: the measure that makes the iteration stop. */
  ghost function Slack(all: set<Reg>, live: Sets): nat {
    if live == [] then 0 else Slack(all, live[..|live| - 1]) + |all - live[|live| - 1]|
  }

  lemma {:induction false} SlackShrinks(all: set<Reg>, live: Sets, i: nat, v: set<Reg>)
    requires i < |live| && live[i] < v <= all
    ensures Slack(all, live[i := v]) < Slack(all, live)
    decreases |live|
  {
    var n := |live| - 1;
    var live' := live[i := v];
    if i == n {
      assert live'[..n] == live[..n];
      LessLeft(all, live[i], v);
    } else {
      SlackShrinks(all, live[..n], i, v);
      assert live'[..n] == live[..n][i := v];
    }
  }

  lemma {:induction false} LessLeft(all: set<Reg>, u: set<Reg>, v: set<Reg>)
    requires u < v <= all
    ensures |all - v| < |all - u|
  {
    var r :| r in v && r !in u;
    assert (all - v) + {r} <= all - u;
    SmallerSet((all - v) + {r}, all - u);
  }

  lemma {:induction false} SmallerSet(a: set<Reg>, b: set<Reg>)
    requires a <= b
    ensures |a| <= |b|
  {
    assert b == a + (b - a);
  }

  ghost predicate UnderEveryPostFixpoint(g: seq<Node>, live: Sets) {
    forall f: Sets | IsPostFixpoint(g, f) :: Below(live, f)
  }

  lemma {:induction false} GrowOne(g: seq<Node>, live: Sets, i: nat)
    requires i < |g| && IsPreFixpoint(g, live) && UnderEveryPostFixpoint(g, live)
    ensures live[i] <= Transfer(g, live, i)
    ensures var live' := live[i := Transfer(g, live, i)];
      IsPreFixpoint(g, live') && UnderEveryPostFixpoint(g, live')
  {
    var live' := live[i := Transfer(g, live, i)];
    assert Within(g, live, i);
    forall j | 0 <= j < |g|
      ensures Within(g, live', j)
    {
      assert Within(g, live, j);
      TransferMonotone(g, live, live', j);
    }
    forall f: Sets | IsPostFixpoint(g, f)
      ensures Below(live', f)
    {
      TransferMonotone(g, live, f, i);
      assert Covers(g, f, i);
    }
  }

  /** One backward pass over the equations. */
  method Pass(g: seq<Node>, live: array<set<Reg>>, ghost all: set<Reg>) returns (change: bool)
    requires IsPreFixpoint(g, live[..]) && UnderEveryPostFixpoint(g, live[..])
    requires forall r: Reg :: r in all
    modifies live
    ensures IsPreFixpoint(g, live[..]) && UnderEveryPostFixpoint(g, live[..])
    ensures change ==> Slack(all, live[..]) < old(Slack(all, live[..]))
    ensures !change ==> live[..] == old(live[..]) && IsFixpoint(g, live[..])
  {
    ghost var start := live[..];
    change := false;
    for i := |g| downto 0
      invariant IsPreFixpoint(g, live[..]) && UnderEveryPostFixpoint(g, live[..])
      invariant change ==> Slack(all, live[..]) < Slack(all, start)
      invariant !change ==> live[..] == start && forall j | i <= j < |g| :: Solves(g, start, j)
    {
      ghost var s := live[..];
      GrowOne(g, s, i);
      var v := Transfer(g, live[..], i);
      if v != live[i] {
        SlackShrinks(all, s, i, v);
        live[i] := v;
        assert live[..] == s[i := v];
        change := true;
      }
    }
  }

  /** The iteration to a fixpoint: it stops, at the least solution of the equations. */
  method Solve(g: seq<Node>) returns (r: Sets)
    requires WellScoped(g)
    ensures IsFixpoint(g, r)
    ensures forall f: Sets | IsPostFixpoint(g, f) :: Below(r, f)
  {
    var live := new set<Reg>[|g| + 1](_ => {});
    var change := true;
    while change
      invariant IsPreFixpoint(g, live[..]) && UnderEveryPostFixpoint(g, live[..])
      invariant !change ==> IsFixpoint(g, live[..])
      decreases Slack(AllRegs, live[..]), change
    {
      change := Pass(g, live, AllRegs);
    }
    return live[..];
  }

  /** Liveness of a program, refused exactly when some edge does not resolve. */
  method Compute(p: seq<Insn>, arity: int -> int) returns (r: Result<Sets>)
    ensures r.Ok? <==> EdgesResolve(p)
    ensures r.Ok? ==> IsFixpoint(Equations(p, arity), r.value)
    ensures r.Ok? ==> forall f: Sets | IsPostFixpoint(Equations(p, arity), f) :: Below(r.value, f)
  {
    var edges := CheckEdges(p);
    if edges.Refused? {
      return Refused(edges.why);
    }
    var live := Solve(Equations(p, arity));
    return Ok(live);
  }

  /** Resolves the jumps in order, then the calls as the backward pass meets them; the value is the number of
      instructions. */
  method CheckEdges(p: seq<Insn>) returns (r: Result<nat>)
    ensures r.Ok? <==> EdgesResolve(p)
    ensures r.Ok? ==> r.value == |p|
  {
    for k := 0 to |p|
      invariant forall i | 0 <= i < k && IsJump(p[i]) :: Edge(p, i).Ok?
    {
      if IsJump(p[k]) && Edge(p, k).Refused? {
        return Refused(Edge(p, k).why);
      }
    }
    for k := |p| downto 0
      invariant forall i | k <= i < |p| && p[i].op.CallFunc? :: Edge(p, i).Ok?
    {
      if p[k].op.CallFunc? && Edge(p, k).Refused? {
        return Refused(Edge(p, k).why);
      }
    }
    return Ok(|p|);
  }

  function Equations(p: seq<Insn>, arity: int -> int): (g: seq<Node>)
    requires EdgesResolve(p)
    ensures |g| == |p| && WellScoped(g)
    ensures forall i | 0 <= i < |p| :: g[i] == NodeOf(p, arity, i)
  {
    seq(|p|, i requires 0 <= i < |p| => NodeOf(p, arity, i))
  }

  // ---------------------------------------------------------------- soundness

  /** The argument registers liveness calls dead at `pc`. */
  ghost function Dead(p: seq<Insn>, live: Sets, pc: int): set<Reg>
    requires |live| == |p| + 1
  {
    if IndexOf(p, pc) < 0 then Args else Args - live[IndexOf(p, pc)]
  }

  lemma {:induction false} UsesAreLive(p: seq<Insn>, arity: int -> int, live: Sets, i: nat)
    requires i < |p| && EdgesResolve(p) && IsFixpoint(Equations(p, arity), live)
    ensures Uses(ArityOf(arity, p[i]), p[i]) * Args <= live[i]
  {
    assert Solves(Equations(p, arity), live, i);
  }

  /** Following one edge from instruction `i` to `j`, nothing dead before comes alive unwritten. */
  lemma {:induction false} DeadFollowsSuccessor(p: seq<Insn>, arity: int -> int, live: Sets, i: nat, k: nat, D: set<Reg>)
    requires i < |p| && EdgesResolve(p) && IsFixpoint(Equations(p, arity), live)
    requires k < |NodeOf(p, arity, i).succ|
    requires D <= Args - live[i]
    ensures D - Defs(p[i]) !! live[NodeOf(p, arity, i).succ[k]]
  {
    var g := Equations(p, arity);
    assert Solves(g, live, i);
    JoinContains(live, g[i].succ, k);
    if p[i].op.LoadLegacy? {
      assert Reads(arity, p[i]) == AllRegs;
    }
  }

  lemma {:induction false} DeadFallsThrough(p: seq<Insn>, arity: int -> int, live: Sets, i: nat, D: set<Reg>)
    requires i < |p| && EdgesResolve(p) && IsFixpoint(Equations(p, arity), live)
    requires FallsThrough(p[i]) && D <= Args - live[i]
    ensures D - Defs(p[i]) <= Dead(p, live, Slot(p, i) + Width(p[i]))
  {
    DeadFollowsSuccessor(p, arity, live, i, if IsJump(p[i]) then 1 else 0, D);
    assert D - Defs(p[i]) !! live[i + 1];
    DeadAt(p, live, i + 1, D - Defs(p[i]));
  }

  lemma {:induction false} DeadAt(p: seq<Insn>, live: Sets, i: nat, D: set<Reg>)
    requires 0 < i <= |p| && |live| == |p| + 1 && D <= Args && D !! live[i]
    ensures D <= Dead(p, live, Slot(p, i - 1) + Width(p[i - 1]))
  {
    NextSlot(p, i - 1);
  }

  lemma {:induction false} DeadJumps(p: seq<Insn>, arity: int -> int, live: Sets, i: nat, D: set<Reg>)
    requires i < |p| && EdgesResolve(p) && IsFixpoint(Equations(p, arity), live)
    requires IsJump(p[i]) && D <= Args - live[i]
    ensures D - Defs(p[i]) <= Dead(p, live, Target(p, Slot(p, i), p[i]))
  {
    EdgeIsTarget(p, i);
    DeadFollowsSuccessor(p, arity, live, i, 0, D);
  }

  lemma {:induction false} DeadEnters(p: seq<Insn>, arity: int -> int, live: Sets, i: nat, D: set<Reg>)
    requires i < |p| && EdgesResolve(p) && IsFixpoint(Equations(p, arity), live)
    requires p[i].op.CallFunc? && D <= Args - live[i]
    ensures D <= Dead(p, live, Target(p, Slot(p, i), p[i]))
  {
    EdgeIsTarget(p, i);
    assert Solves(Equations(p, arity), live, i);
  }

  /** Where an instruction that is neither a call nor an exit continues. */
  lemma {:induction false} LocalSuccessor(env: Env, L: Loaded, s: State)
    requires Step(env, L, s).Running?
    requires IndexOf(L.insns, s.pc) >= 0
    requires var ins := L.insns[IndexOf(L.insns, s.pc)];
      !(ins.op.LoadLegacy? || ins.op.CallHelper? || ins.op.CallKfunc? || ins.op.CallFunc? || ins.op.Exit?)
    ensures var ins := L.insns[IndexOf(L.insns, s.pc)];
      var to := Step(env, L, s).s.pc;
      (IsJump(ins) && to == Target(L.insns, s.pc, ins)) || (FallsThrough(ins) && to == s.pc + Width(ins))
  {
  }

  /** Whatever one step does, registers that may differ after it are dead where it continues. */
  lemma {:induction false} DeadFollowsStep(env: Env, L: Loaded, live: Sets, s: State, D: set<Reg>)
    requires EdgesResolve(L.insns) && IsFixpoint(Equations(L.insns, env.arity), live)
    requires Step(env, L, s).Running? && IndexOf(L.insns, s.pc) >= 0 && D <= Dead(L.insns, live, s.pc)
    ensures StillDiffer(L.insns[IndexOf(L.insns, s.pc)], D) <= Dead(L.insns, live, Step(env, L, s).s.pc)
  {
    var i := IndexOf(L.insns, s.pc);
    var ins := L.insns[i];
    if ins.op.LoadLegacy? || ins.op.CallHelper? || ins.op.CallKfunc? || ins.op.Exit? {
      assert StillDiffer(ins, D) == {};
    } else if ins.op.CallFunc? {
      DeadEnters(L.insns, env.arity, live, i, D);
      assert Step(env, L, s) == EnterFunc(L, s, ins);
    } else {
      LocalSuccessor(env, L, s);
      DeadFollowsLocal(L.insns, env.arity, live, i, D, Step(env, L, s).s.pc);
    }
  }

  lemma {:induction false} DeadFollowsLocal(p: seq<Insn>, arity: int -> int, live: Sets, i: nat, D: set<Reg>, to: int)
    requires i < |p| && EdgesResolve(p) && IsFixpoint(Equations(p, arity), live) && D <= Args - live[i]
    requires (IsJump(p[i]) && to == Target(p, Slot(p, i), p[i])) || (FallsThrough(p[i]) && to == Slot(p, i) + Width(p[i]))
    ensures D - Defs(p[i]) <= Dead(p, live, to)
  {
    if IsJump(p[i]) && to == Target(p, Slot(p, i), p[i]) {
      DeadJumps(p, arity, live, i, D);
    } else {
      DeadFallsThrough(p, arity, live, i, D);
    }
  }

  /** States that agree except on registers liveness calls dead at their common pc. */
  ghost predicate LiveTwin(p: seq<Insn>, live: Sets, s: State, t: State)
    requires |live| == |p| + 1
  {
    Twin(s, t, Dead(p, live, s.pc))
  }

  ghost predicate LiveTwinOutcome(p: seq<Insn>, live: Sets, o: Outcome, q: Outcome)
    requires |live| == |p| + 1
  {
    match o
    case Running(s) => q.Running? && LiveTwin(p, live, s, q.s)
    case Halted(_, _, _) => o == q
    case Stuck => q.Stuck?
  }

  /** Two states that differ in some dead registers only step together, and what still differs is dead again. */
  lemma {:induction false} DeadStep(env: Env, L: Loaded, live: Sets, s: State, t: State, D: set<Reg>)
    requires EdgesResolve(L.insns) && IsFixpoint(Equations(L.insns, env.arity), live)
    requires Twin(s, t, D) && D <= Dead(L.insns, live, s.pc)
    ensures var i, o, q := IndexOf(L.insns, s.pc), Step(env, L, s), Step(env, L, t);
      if i < 0 then o == q == Stuck
      else TwinOutcome(o, q, StillDiffer(L.insns[i], D)) &&
           (o.Running? ==> StillDiffer(L.insns[i], D) <= D * Dead(L.insns, live, o.s.pc))
  {
    var i := IndexOf(L.insns, s.pc);
    if i >= 0 {
      UsesAreLive(L.insns, env.arity, live, i);
    }
    StepTwins(env, L, s, t, D);
    if Step(env, L, s).Running? {
      DeadFollowsStep(env, L, live, s, D);
    }
  }

  lemma {:induction false} LiveStep(env: Env, L: Loaded, live: Sets, s: State, t: State)
    requires EdgesResolve(L.insns) && IsFixpoint(Equations(L.insns, env.arity), live)
    requires LiveTwin(L.insns, live, s, t)
    ensures LiveTwinOutcome(L.insns, live, Step(env, L, s), Step(env, L, t))
  {
    DeadStep(env, L, live, s, t, Dead(L.insns, live, s.pc));
  }

  /** Liveness soundness over whole runs: two runs that start equal except for dead argument
      registers take the same branches, make the same stores and helper calls, and end with the
      same result, through calls, callbacks and returns. */
  lemma {:induction false} LiveRun(env: Env, L: Loaded, live: Sets, s: State, t: State, n: nat)
    requires EdgesResolve(L.insns) && IsFixpoint(Equations(L.insns, env.arity), live)
    requires LiveTwin(L.insns, live, s, t)
    ensures LiveTwinOutcome(L.insns, live, Run(env, L, s, n), Run(env, L, t, n))
    decreases n
  {
    if n > 0 {
      LiveStep(env, L, live, s, t);
      var f := Stepper(env, L);
      assert f(s) == Step(env, L, s) && f(t) == Step(env, L, t);
      if f(s).Running? {
        LiveRun(env, L, live, f(s).s, f(t).s, n - 1);
      }
    }
  }
}
