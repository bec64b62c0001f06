/** What the two register analyses report, said by paths: a register is reported exactly when some way through the code
    comes to an instruction that reads it, past none that writes it. */
module ReadPaths {
  import opened Machine
  import opened Agreement
  import Liveness
  import ArgReads

  // ---------------------------------------------------------------- control

  predicate Jumps(ins: Insn) {
    ins.op.Goto? || ins.op.GotoLong? || ins.op.GotoIndirect? || ins.op.Branch?
  }

  predicate Continues(ins: Insn) {
    !ins.op.Exit? && !ins.op.Goto? && !ins.op.GotoLong? && !ins.op.GotoIndirect?
  }

  /** Control may go on from instruction `i` to `j` in the same function. */
  predicate Goes(p: seq<Insn>, i: int, j: int) {
    0 <= i < |p| && 0 <= j < |p| &&
    ((Jumps(p[i]) && Slot(p, j) == Target(p, Slot(p, i), p[i])) || (Continues(p[i]) && j == i + 1))
  }

  /** Instruction `i` calls the function that starts at `j`. */
  predicate Enters(p: seq<Insn>, i: int, j: int) {
    0 <= i < |p| && 0 <= j < |p| && p[i].op.CallFunc? && Slot(p, j) == Target(p, Slot(p, i), p[i])
  }

  lemma {:induction false} EdgeMeans(p: seq<Insn>, i: nat, j: nat)
    requires i < |p| && j < |p| && Liveness.Edge(p, i).Ok?
    ensures Slot(p, j) == Target(p, Slot(p, i), p[i]) <==> j == Liveness.Edge(p, i).value
  {
    Liveness.EdgeIsTarget(p, i);
    IndexOfSlot(p, j);
  }

  lemma {:induction false} GoalMeans(p: seq<Insn>, i: nat, j: nat)
    requires i < |p| && j < |p|
    ensures Slot(p, j) == Target(p, Slot(p, i), p[i]) <==> j == ArgReads.Goal(p, i)
  {
    IndexOfSlot(p, j);
    if ArgReads.Goal(p, i) >= 0 {
      ArgReads.GoalIsTarget(p, i);
    }
  }

  // ---------------------------------------------------------------- liveness

  /** Read at once: as the machine reads, but for unary operations, atomics' R0 and legacy loads. */
  predicate LiveRead(arity: int -> int, ins: Insn, r: Reg) {
    if ins.op.CallFunc? then false
    else if ins.op.LoadLegacy? then true
    else if ins.op.Atomic? then r == ins.dst || r == ins.src
    else r in Uses(ArityOf(arity, ins), ins) || (ins.op.Alu? && ins.op.fromReg && r == ins.src)
  }

  predicate LiveKept(ins: Insn, r: Reg) {
    if ins.op.LoadLegacy? then r != ins.dst else r !in Defs(ins)
  }

  predicate LiveVia(p: seq<Insn>, r: Reg, i: int, j: int) {
    (Enters(p, i, j) && r in Args) || (Goes(p, i, j) && LiveKept(p[i], r))
  }

  predicate LivePath(p: seq<Insn>, arity: int -> int, r: Reg, path: seq<int>)
    decreases |path|
  {
    path != [] && 0 <= path[0] < |p| &&
    if |path| == 1 then LiveRead(arity, p[path[0]], r) else LiveVia(p, r, path[0], path[1]) && LivePath(p, arity, r, path[1..])
  }

  ghost predicate LiveFrom(p: seq<Insn>, arity: int -> int, r: Reg, i: int) {
    exists path: seq<int> :: LivePath(p, arity, r, path) && path[0] == i
  }

  lemma {:induction false} LiveOn(p: seq<Insn>, arity: int -> int, r: Reg, i: nat, j: int)
    requires i < |p| && LiveVia(p, r, i, j) && LiveFrom(p, arity, r, j)
    ensures LiveFrom(p, arity, r, i)
  {
    var path: seq<int> :| LivePath(p, arity, r, path) && path[0] == j;
    assert ([i] + path)[1..] == path;
    assert LivePath(p, arity, r, [i] + path);
  }

  lemma {:induction false} LiveNow(p: seq<Insn>, arity: int -> int, r: Reg, i: nat)
    requires i < |p| && LiveRead(arity, p[i], r)
    ensures LiveFrom(p, arity, r, i)
  {
    assert LivePath(p, arity, r, [i]);
  }

  lemma {:induction false} LiveHere(p: seq<Insn>, arity: int -> int, live: Liveness.Sets, r: Reg, path: seq<int>)
    requires Liveness.EdgesResolve(p) && Liveness.IsFixpoint(Liveness.Equations(p, arity), live) && LivePath(p, arity, r, path)
    ensures r in live[path[0]]
    decreases |path|
  {
    var i, g := path[0], Liveness.Equations(p, arity);
    assert Liveness.Solves(g, live, i) && g[i] == Liveness.NodeOf(p, arity, i);
    if |path| > 1 {
      LiveHere(p, arity, live, r, path[1..]);
      var j := path[1];
      if Jumps(p[i]) || p[i].op.CallFunc? {
        EdgeMeans(p, i, j);
      }
      if Goes(p, i, j) {
        var k := if g[i].succ[0] == j then 0 else 1;
        assert k < |g[i].succ| && g[i].succ[k] == j;
        Liveness.JoinContains(live, g[i].succ, k);
      }
    }
  }

  /** The path-based sets. */
  ghost function LiveSets(p: seq<Insn>, arity: int -> int): (live: Liveness.Sets)
    ensures |live| == |p| + 1 && live[|p|] == {}
    ensures forall i, r: Reg | 0 <= i < |p| :: r in live[i] <==> LiveFrom(p, arity, r, i)
  {
    seq(|p| + 1, i => if 0 <= i < |p| then set r: Reg | r in AllRegs && LiveFrom(p, arity, r, i) else {})
  }

  lemma {:induction false} JoinMember(live: Liveness.Sets, succ: seq<nat>, r: Reg) returns (k: nat)
    requires (forall j | 0 <= j < |succ| :: succ[j] < |live|) && r in Liveness.Join(live, succ)
    ensures k < |succ| && r in live[succ[k]]
    decreases |succ|
  {
    if r in live[succ[0]] {
      k := 0;
    } else {
      k := JoinMember(live, succ[1..], r);
      k := k + 1;
    }
  }

  lemma {:induction false} PathsCover(p: seq<Insn>, arity: int -> int, i: nat, r: Reg)
    requires Liveness.EdgesResolve(p) && i < |p| && r in Liveness.Transfer(Liveness.Equations(p, arity), LiveSets(p, arity), i)
    ensures LiveFrom(p, arity, r, i)
  {
    var g, live, ins := Liveness.Equations(p, arity), LiveSets(p, arity), p[i];
    assert g[i] == Liveness.NodeOf(p, arity, i);
    if r in Liveness.Join(live, g[i].succ) - g[i].writes {
      var k := JoinMember(live, g[i].succ, r);
      var j := g[i].succ[k];
      if Jumps(ins) {
        EdgeMeans(p, i, Liveness.Edge(p, i).value);
      }
      LiveOn(p, arity, r, i, j);
    } else if ins.op.CallFunc? {
      Liveness.EdgeIsTarget(p, i);
      EdgeMeans(p, i, Liveness.Edge(p, i).value);
      LiveOn(p, arity, r, i, Liveness.Edge(p, i).value);
    } else {
      LiveNow(p, arity, r, i);
    }
  }

  /** Live are exactly the registers some path reads before writing, into callees included. */
  lemma {:induction false} LiveExactly(p: seq<Insn>, arity: int -> int, live: Liveness.Sets, i: nat, r: Reg)
    requires Liveness.EdgesResolve(p) && i < |p| && Liveness.IsFixpoint(Liveness.Equations(p, arity), live)
    requires forall f: Liveness.Sets | Liveness.IsPostFixpoint(Liveness.Equations(p, arity), f) :: Liveness.Below(live, f)
    ensures r in live[i] <==> LiveFrom(p, arity, r, i)
  {
    var g, all := Liveness.Equations(p, arity), LiveSets(p, arity);
    forall k | 0 <= k < |p|
      ensures Liveness.Covers(g, all, k)
    {
      forall q | q in Liveness.Transfer(g, all, k)
        ensures q in all[k]
      {
        PathsCover(p, arity, k, q);
      }
    }
    assert Liveness.IsPostFixpoint(g, all);
    if LiveFrom(p, arity, r, i) {
      var path: seq<int> :| LivePath(p, arity, r, path) && path[0] == i;
      LiveHere(p, arity, live, r, path);
    }
  }

  // ---------------------------------------------------------------- argument reads

  /** Read at once: as the machine reads, all arguments by a call to a global function or a legacy load. */
  ghost predicate ArgRead(p: seq<Insn>, arity: int -> int, i: int, r: Reg)
    requires 0 <= i < |p|
  {
    if p[i].op.CallFunc? then r in Args && forall j | Enters(p, i, j) :: p[j].fn.GlobalFunc?
    else if p[i].op.LoadLegacy? then r in Args || r == p[i].src
    else r in Uses(ArityOf(arity, p[i]), p[i])
  }

  predicate ArgVia(p: seq<Insn>, r: Reg, i: int, j: int) {
    (Enters(p, i, j) && !p[j].fn.GlobalFunc?) || (Goes(p, i, j) && r !in Defs(p[i]))
  }

  ghost predicate ArgPath(p: seq<Insn>, arity: int -> int, r: Reg, path: seq<int>)
    decreases |path|
  {
    path != [] && 0 <= path[0] < |p| &&
    if |path| == 1 then ArgRead(p, arity, path[0], r) else ArgVia(p, r, path[0], path[1]) && ArgPath(p, arity, r, path[1..])
  }

  ghost predicate ArgFrom(p: seq<Insn>, arity: int -> int, r: Reg, i: int) {
    exists path: seq<int> :: ArgPath(p, arity, r, path) && path[0] == i
  }

  lemma {:induction false} ArgOn(p: seq<Insn>, arity: int -> int, r: Reg, i: int, j: int)
    requires ArgVia(p, r, i, j) && ArgFrom(p, arity, r, j)
    ensures ArgFrom(p, arity, r, i)
  {
    var path: seq<int> :| ArgPath(p, arity, r, path) && path[0] == j;
    assert ([i] + path)[1..] == path;
    assert ArgPath(p, arity, r, [i] + path);
  }

  /** A path from `start` that never writes `r`, calls passed over. */
  predicate Clear(p: seq<Insn>, r: Reg, path: seq<int>)
    decreases |path|
  {
    path != [] && (|path| == 1 || (Goes(p, path[|path| - 2], path[|path| - 1]) && r !in Defs(p[path[|path| - 2]]) && Clear(p, r, path[..|path| - 1])))
  }

  ghost predicate ClearTo(p: seq<Insn>, r: Reg, start: int, i: int) {
    exists path: seq<int> :: Clear(p, r, path) && path[0] == start && path[|path| - 1] == i
  }

  lemma {:induction false} ClearOn(p: seq<Insn>, r: Reg, start: int, i: int, j: int)
    requires ClearTo(p, r, start, i) && Goes(p, i, j) && r !in Defs(p[i])
    ensures ClearTo(p, r, start, j)
  {
    var path: seq<int> :| Clear(p, r, path) && path[0] == start && path[|path| - 1] == i;
    var longer := path + [j];
    assert longer[..|longer| - 1] == path;
    assert Clear(p, r, longer);
  }

  /** What is read after a clear path is read from its start. */
  lemma {:induction false} ReadsBack(p: seq<Insn>, arity: int -> int, r: Reg, path: seq<int>)
    requires Clear(p, r, path) && ArgFrom(p, arity, r, path[|path| - 1])
    ensures ArgFrom(p, arity, r, path[0])
    decreases |path|
  {
    if |path| > 1 {
      ArgOn(p, arity, r, path[|path| - 2], path[|path| - 1]);
      ReadsBack(p, arity, r, path[..|path| - 1]);
    }
  }

  // ---------------------------------------------------------------- the solution by paths

  ghost function PathFacts(p: seq<Insn>, arity: int -> int, start: int, w: map<int, set<Reg>>): ArgReads.Facts {
    ArgReads.Facts(map i | i in w :: set r: Reg | r in CallerSaved && !ClearTo(p, r, start, i), set r: Reg | r in CallerSaved && ArgFrom(p, arity, r, start))
  }

  ghost function ByPaths(p: seq<Insn>, arity: int -> int, sol: ArgReads.Solution): ArgReads.Solution {
    map start | start in sol :: PathFacts(p, arity, start, sol[start].written)
  }

  /** What instruction `i` reads, callees by their paths, is read from `i` on. */
  lemma {:induction false} UseIsRead(p: seq<Insn>, arity: int -> int, sol: ArgReads.Solution, start: int, i: nat, r: Reg)
    requires ArgReads.Sound(p, arity, sol) && start in sol && i in sol[start].written && i < |p|
    requires r in ArgReads.UseOf(p, arity, ByPaths(p, arity, sol), i)
    ensures r in CallerSaved && ArgFrom(p, arity, r, i)
  {
    assert ArgReads.SoundAt(p, arity, sol, start);
    assert ArgReads.Settled(p, arity, sol, sol[start].written, sol[start].out, i);
    var j := ArgReads.Goal(p, i);
    if p[i].op.CallFunc? {
      GoalMeans(p, i, j);
      if p[j].fn.GlobalFunc? {
        forall k | Enters(p, i, k)
          ensures k == j
        {
          GoalMeans(p, i, k);
        }
        assert ArgPath(p, arity, r, [i]);
      } else {
        ArgOn(p, arity, r, i, j);
      }
    } else {
      assert ArgPath(p, arity, r, [i]);
    }
  }

  lemma {:induction false} NextGoes(p: seq<Insn>, arity: int -> int, sol: ArgReads.Solution, start: int, i: nat, k: nat)
    requires ArgReads.Sound(p, arity, sol) && start in sol && i in sol[start].written && i < |p| && k < |ArgReads.Next(p, i)|
    ensures Goes(p, i, ArgReads.Next(p, i)[k]) && ArgReads.Next(p, i)[k] in sol[start].written
  {
    var j := ArgReads.Next(p, i)[k];
    assert ArgReads.SoundAt(p, arity, sol, start);
    assert ArgReads.Settled(p, arity, sol, sol[start].written, sol[start].out, i);
    assert ArgReads.Settled(p, arity, sol, sol[start].written, sol[start].out, j);
    if Jumps(p[i]) {
      GoalMeans(p, i, j);
    }
  }

  lemma {:induction false} PathsSettle(p: seq<Insn>, arity: int -> int, sol: ArgReads.Solution, start: int, i: int)
    requires ArgReads.Sound(p, arity, sol) && start in sol && i in sol[start].written
    ensures var other := ByPaths(p, arity, sol); ArgReads.Settled(p, arity, other, other[start].written, other[start].out, i)
  {
    var other := ByPaths(p, arity, sol);
    var w, out := other[start].written, other[start].out;
    assert ArgReads.SoundAt(p, arity, sol, start);
    assert ArgReads.Settled(p, arity, sol, sol[start].written, sol[start].out, i);
    forall r | r in ArgReads.UseOf(p, arity, other, i) && r !in w[i]
      ensures r in out
    {
      UseIsRead(p, arity, sol, start, i, r);
      var path: seq<int> :| Clear(p, r, path) && path[0] == start && path[|path| - 1] == i;
      ReadsBack(p, arity, r, path);
    }
    forall k | 0 <= k < |ArgReads.Next(p, i)|
      ensures ArgReads.Next(p, i)[k] in w && w[ArgReads.Next(p, i)[k]] <= w[i] + ArgReads.Def(p[i])
    {
      var j := ArgReads.Next(p, i)[k];
      NextGoes(p, arity, sol, start, i, k);
      forall r | r in w[j]
        ensures r in w[i] || r in ArgReads.Def(p[i])
      {
        if r !in w[i] && r !in Defs(p[i]) {
          ClearOn(p, r, start, i, j);
        }
      }
    }
  }

  lemma {:induction false} PathsAreSound(p: seq<Insn>, arity: int -> int, sol: ArgReads.Solution)
    requires ArgReads.Sound(p, arity, sol)
    ensures ArgReads.Sound(p, arity, ByPaths(p, arity, sol))
  {
    var other := ByPaths(p, arity, sol);
    forall start | start in other
      ensures ArgReads.SoundAt(p, arity, other, start)
    {
      assert ArgReads.SoundAt(p, arity, sol, start);
      forall r: Reg
        ensures ClearTo(p, r, start, start)
      {
        assert Clear(p, r, [start]);
      }
      forall i | i in other[start].written
        ensures ArgReads.Settled(p, arity, other, other[start].written, other[start].out, i)
      {
        PathsSettle(p, arity, sol, start, i);
      }
    }
  }

  /** Every sound solution reports what a path reads. */
  lemma {:induction false} PathIsReported(p: seq<Insn>, arity: int -> int, sol: ArgReads.Solution, start: int, r: Reg, path: seq<int>)
    requires ArgReads.Sound(p, arity, sol) && start in sol && r in Args && ArgPath(p, arity, r, path)
    requires path[0] in sol[start].written && r !in sol[start].written[path[0]]
    ensures r in sol[start].out
    decreases |path|
  {
    var i, w := path[0], sol[start].written;
    assert ArgReads.SoundAt(p, arity, sol, start);
    assert ArgReads.Settled(p, arity, sol, w, sol[start].out, i);
    var goal := ArgReads.Goal(p, i);
    if |path| == 1 {
      if p[i].op.CallFunc? {
        GoalMeans(p, i, goal);
        assert Enters(p, i, goal);
      }
      assert r in ArgReads.UseOf(p, arity, sol, i);
    } else {
      var j := path[1];
      if Jumps(p[i]) || p[i].op.CallFunc? {
        GoalMeans(p, i, j);
      }
      if Enters(p, i, j) && !p[j].fn.GlobalFunc? {
        assert ArgReads.SoundAt(p, arity, sol, j);
        PathIsReported(p, arity, sol, j, r, path[1..]);
        assert r in ArgReads.UseOf(p, arity, sol, i);
      } else {
        var next := ArgReads.Next(p, i);
        var k := if next[0] == j then 0 else 1;
        assert k < |next| && next[k] == j;
        PathIsReported(p, arity, sol, start, r, path[1..]);
      }
    }
  }

  lemma {:induction false} ReportedIsRead(p: seq<Insn>, arity: int -> int, sol: ArgReads.Solution, start: int, r: Reg)
    requires ArgReads.Sound(p, arity, sol) && ArgReads.Least(p, arity, sol) && start in sol && r in sol[start].out
    ensures ArgFrom(p, arity, r, start)
  {
    PathsAreSound(p, arity, sol);
    var other := ByPaths(p, arity, sol);
    assert sol[start].out <= other[start].out;
  }

  lemma {:induction false} ReadIsReported(p: seq<Insn>, arity: int -> int, sol: ArgReads.Solution, start: int, r: Reg)
    requires ArgReads.Sound(p, arity, sol) && start in sol && r in Args && ArgFrom(p, arity, r, start)
    ensures r in sol[start].out
  {
    assert ArgReads.SoundAt(p, arity, sol, start);
    var path: seq<int> :| ArgPath(p, arity, r, path) && path[0] == start;
    PathIsReported(p, arity, sol, start, r, path);
  }

  /** Reported are exactly the argument registers some path from the function's start reads before writing, into static
      callees included. */
  lemma {:induction false} ReportedExactly(p: seq<Insn>, arity: int -> int, sol: ArgReads.Solution, start: int, out: set<Reg>, r: Reg)
    requires ArgReads.Reported(p, arity, sol, start, out) && r in Args
    ensures r in out <==> ArgFrom(p, arity, r, start)
  {
    if r in out {
      ReportedIsRead(p, arity, sol, start, r);
    }
    if ArgFrom(p, arity, r, start) {
      ReadIsReported(p, arity, sol, start, r);
    }
  }
}
