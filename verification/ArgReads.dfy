/** Which argument registers a function may read before writing them, so that the others are free to
    carry the program context down to it. */
module ArgReads {
  import opened Machine
  import opened Agreement
  import opened Liveness

  // ---------------------------------------------------------------- one instruction

  /** R0-R5 an instruction reads; a call to another function is handled by `UseOf`. */
  function Use(arity: int -> int, ins: Insn): set<Reg> {
    if ins.op.LoadLegacy? then ({ins.src} + Args) * CallerSaved else Uses(ArityOf(arity, ins), ins) * CallerSaved
  }

  function Def(ins: Insn): set<Reg> {
    Defs(ins) * CallerSaved
  }

  /** Where the jump or call at `i` leads, by instruction index; -1 when nowhere. */
  function Goal(p: seq<Insn>, i: nat): (j: int)
    requires i < |p|
    ensures -1 <= j < |p|
  {
    if p[i].ref != "" then FindSym(p, p[i].ref) else IndexOf(p, Target(p, Slot(p, i), p[i]))
  }

  lemma {:induction false} GoalIsTarget(p: seq<Insn>, i: nat)
    requires i < |p| && Goal(p, i) >= 0
    ensures IndexOf(p, Target(p, Slot(p, i), p[i])) == Goal(p, i)
  {
    if p[i].ref != "" {
      IndexOfSlot(p, Goal(p, i));
    }
  }

  /** Indices control may reach next inside the function. */
  function Next(p: seq<Insn>, i: nat): seq<int>
    requires i < |p|
  {
    (if IsJump(p[i]) then [Goal(p, i)] else []) + (if FallsThrough(p[i]) then [i + 1] else [])
  }

  // ---------------------------------------------------------------- solutions

  /** Per function: the registers every path has written before each reached index, and the result. */
  datatype Facts = Facts(written: map<int, set<Reg>>, out: set<Reg>)
  type Solution = map<int, Facts>

  predicate IsStaticCall(p: seq<Insn>, i: nat)
    requires i < |p|
  {
    p[i].op.CallFunc? && 0 <= Goal(p, i) && !p[Goal(p, i)].fn.GlobalFunc?
  }

  function UseOf(p: seq<Insn>, arity: int -> int, sol: Solution, i: nat): set<Reg>
    requires i < |p|
  {
    if !p[i].op.CallFunc? then Use(arity, p[i])
    else if IsStaticCall(p, i) && Goal(p, i) in sol then sol[Goal(p, i)].out
    else Args
  }

  /** Index `i` of a function is accounted for. */
  predicate Settled(p: seq<Insn>, arity: int -> int, sol: Solution, w: map<int, set<Reg>>, out: set<Reg>, i: int) {
    i in w && 0 <= i < |p| &&
    (IsJump(p[i]) || p[i].op.CallFunc? ==> 0 <= Goal(p, i)) &&
    (IsStaticCall(p, i) ==> Goal(p, i) in sol) &&
    UseOf(p, arity, sol, i) - w[i] <= out &&
    forall k | 0 <= k < |Next(p, i)| :: Next(p, i)[k] in w && w[Next(p, i)[k]] <= w[i] + Def(p[i])
  }

  predicate SoundAt(p: seq<Insn>, arity: int -> int, sol: Solution, start: int) {
    start in sol && start in sol[start].written && sol[start].written[start] == {} &&
    forall i | i in sol[start].written :: Settled(p, arity, sol, sol[start].written, sol[start].out, i)
  }

  predicate Sound(p: seq<Insn>, arity: int -> int, sol: Solution) {
    forall start | start in sol :: SoundAt(p, arity, sol, start)
  }

  // ---------------------------------------------------------------- noninterference

  /** `s` and `t` differ at most in `r`, and if they do, a function whose result excludes `r` is running
      and has not written it yet. */
  ghost predicate FreeTwin(p: seq<Insn>, sol: Solution, r: Reg, s: State, t: State) {
    Twin(s, t, {}) ||
    (Twin(s, t, {r}) && exists start | start in sol :: Unread(p, sol, r, start, IndexOf(p, s.pc)))
  }

  predicate Unread(p: seq<Insn>, sol: Solution, r: Reg, start: int, i: int) {
    start in sol && i in sol[start].written && r !in sol[start].written[i] && r !in sol[start].out
  }

  ghost predicate FreeTwinOutcome(p: seq<Insn>, sol: Solution, r: Reg, o: Outcome, q: Outcome) {
    match o
    case Running(s) => q.Running? && FreeTwin(p, sol, r, s, q.s)
    case Halted(_, _, _) => o == q
    case Stuck => q.Stuck?
  }

  lemma {:induction false} UnusedHere(p: seq<Insn>, arity: int -> int, sol: Solution, r: Reg, start: int, i: int)
    requires Sound(p, arity, sol) && r in Args && Unread(p, sol, r, start, i)
    ensures 0 <= i < |p| && Uses(ArityOf(arity, p[i]), p[i]) !! {r}
    ensures p[i].op.CallFunc? ==> IsStaticCall(p, i) && Unread(p, sol, r, Goal(p, i), Goal(p, i))
  {
    assert SoundAt(p, arity, sol, start);
    assert Settled(p, arity, sol, sol[start].written, sol[start].out, i);
    assert r !in UseOf(p, arity, sol, i);
    if p[i].op.CallFunc? {
      assert SoundAt(p, arity, sol, Goal(p, i));
    }
  }

  lemma {:induction false} UnreadFollows(p: seq<Insn>, arity: int -> int, sol: Solution, r: Reg, start: int, i: int, k: nat)
    requires Sound(p, arity, sol) && r in Args && Unread(p, sol, r, start, i) && 0 <= i < |p|
    requires k < |Next(p, i)| && r !in Defs(p[i])
    ensures Unread(p, sol, r, start, Next(p, i)[k])
  {
    assert SoundAt(p, arity, sol, start);
    assert Settled(p, arity, sol, sol[start].written, sol[start].out, i);
  }

  lemma {:induction false} UnreadAfter(p: seq<Insn>, arity: int -> int, sol: Solution, r: Reg, start: int, i: nat, to: int)
    requires Sound(p, arity, sol) && r in Args && Unread(p, sol, r, start, i) && i < |p| && r !in Defs(p[i])
    requires (IsJump(p[i]) && to == Target(p, Slot(p, i), p[i])) || (FallsThrough(p[i]) && to == Slot(p, i) + Width(p[i]))
    ensures Unread(p, sol, r, start, IndexOf(p, to))
  {
    assert SoundAt(p, arity, sol, start);
    assert Settled(p, arity, sol, sol[start].written, sol[start].out, i);
    if IsJump(p[i]) && to == Target(p, Slot(p, i), p[i]) {
      UnreadFollows(p, arity, sol, r, start, i, 0);
      GoalIsTarget(p, i);
    } else {
      UnreadFollows(p, arity, sol, r, start, i, |Next(p, i)| - 1);
      NextSlot(p, i);
      assert Settled(p, arity, sol, sol[start].written, sol[start].out, i + 1);
      IndexOfSlot(p, i + 1);
    }
  }

  /** The index one local step continues at is among `Next`. */
  lemma {:induction false} StepFollows(env: Env, L: Loaded, sol: Solution, r: Reg, start: int, s: State)
    requires Sound(L.insns, env.arity, sol) && r in Args && Step(env, L, s).Running?
    requires var i := IndexOf(L.insns, s.pc);
      0 <= i && Unread(L.insns, sol, r, start, i) && r !in Defs(L.insns[i]) && !L.insns[i].op.CallFunc? && !L.insns[i].op.Exit?
    ensures Unread(L.insns, sol, r, start, IndexOf(L.insns, Step(env, L, s).s.pc))
  {
    var p, i := L.insns, IndexOf(L.insns, s.pc);
    LocalSuccessor(env, L, s);
    UnreadAfter(p, env.arity, sol, r, start, i, Step(env, L, s).s.pc);
  }

  /** One step of the function that has not written `r` yet. */
  lemma {:induction false} UnwrittenStep(env: Env, L: Loaded, sol: Solution, r: Reg, s: State, t: State, start: int)
    requires Sound(L.insns, env.arity, sol) && r in Args && Twin(s, t, {r})
    requires Unread(L.insns, sol, r, start, IndexOf(L.insns, s.pc))
    ensures FreeTwinOutcome(L.insns, sol, r, Step(env, L, s), Step(env, L, t))
  {
    var p, i := L.insns, IndexOf(L.insns, s.pc);
    UnusedHere(p, env.arity, sol, r, start, i);
    StepTwins(env, L, s, t, {r});
    if Step(env, L, s).Running? {
      if p[i].op.CallFunc? {
        CallEnters(env, L, s);
        GoalIsTarget(p, i);
        assert Unread(p, sol, r, Goal(p, i), IndexOf(p, Step(env, L, s).s.pc));
      } else if !p[i].op.Exit? && r !in Defs(p[i]) {
        StepFollows(env, L, sol, r, start, s);
      } else {
        assert StillDiffer(p[i], {r}) == {};
      }
    }
  }

  lemma {:induction false} CallEnters(env: Env, L: Loaded, s: State)
    requires var i := IndexOf(L.insns, s.pc); 0 <= i && L.insns[i].op.CallFunc? && Step(env, L, s).Running?
    ensures Step(env, L, s).s.pc == Target(L.insns, s.pc, L.insns[IndexOf(L.insns, s.pc)])
  {
  }

  lemma {:induction false} FreeStep(env: Env, L: Loaded, sol: Solution, r: Reg, s: State, t: State)
    requires Sound(L.insns, env.arity, sol) && r in Args && FreeTwin(L.insns, sol, r, s, t)
    ensures FreeTwinOutcome(L.insns, sol, r, Step(env, L, s), Step(env, L, t))
  {
    if Twin(s, t, {}) {
      StepTwins(env, L, s, t, {});
    } else {
      var start :| start in sol && Unread(L.insns, sol, r, start, IndexOf(L.insns, s.pc));
      UnwrittenStep(env, L, sol, r, s, t, start);
    }
  }

  /** Free-argument noninterference: started with different values in a register the analysis does not
      report, a function behaves the same: same branches, stores, helper calls and result, through
      joins, nested calls and the return to its caller. */
  lemma {:induction false} FreeArgument(env: Env, L: Loaded, sol: Solution, r: Reg, s: State, t: State, n: nat)
    requires Sound(L.insns, env.arity, sol) && r in Args && FreeTwin(L.insns, sol, r, s, t)
    ensures FreeTwinOutcome(L.insns, sol, r, Run(env, L, s, n), Run(env, L, t, n))
    decreases n
  {
    if n > 0 {
      FreeStep(env, L, sol, r, s, t);
      var f := Stepper(env, L);
      assert f(s) == Step(env, L, s) && f(t) == Step(env, L, t);
      if f(s).Running? {
        FreeArgument(env, L, sol, r, f(s).s, f(t).s, n - 1);
      }
    }
  }

  // ---------------------------------------------------------------- the analysis

  /** `sol` is at or below every sound solution that covers the same functions. */
  ghost predicate Least(p: seq<Insn>, arity: int -> int, sol: Solution) {
    forall other: Solution, start | Sound(p, arity, other) && start in sol && start in other :: sol[start].out <= other[start].out
  }

  /** Facts that any sound solution for `start` is at least as pessimistic as. */
  ghost predicate Under(p: seq<Insn>, arity: int -> int, start: int, w: map<int, set<Reg>>, out: set<Reg>) {
    forall other: Solution | Sound(p, arity, other) && start in other ::
      out <= other[start].out && forall i | i in w :: i in other[start].written && other[start].written[i] <= w[i]
  }

  /** How much the written sets can still change, over indices below `n`. */
  ghost function Room(w: map<int, set<Reg>>, n: nat): nat {
    if n == 0 then 0 else Room(w, n - 1) + (if n - 1 in w then |w[n - 1]| else 12)
  }

  lemma {:induction false} RoomShrinks(w: map<int, set<Reg>>, n: nat, i: nat, v: set<Reg>)
    requires i < n && (if i in w then v < w[i] else |v| < 12)
    ensures Room(w[i := v], n) < Room(w, n)
    decreases n
  {
    if i == n - 1 {
      RoomSame(w, n - 1, i, v);
      if i in w {
        assert w[i] == v + (w[i] - v);
      }
    } else {
      RoomShrinks(w, n - 1, i, v);
    }
  }

  lemma {:induction false} RoomSame(w: map<int, set<Reg>>, n: nat, i: nat, v: set<Reg>)
    requires n <= i
    ensures Room(w[i := v], n) == Room(w, n)
    decreases n
  {
    if n > 0 {
      RoomSame(w, n - 1, i, v);
    }
  }

  lemma {:induction false} FewBelow(v: set<Reg>, n: nat)
    requires forall r | r in v :: r < n
    ensures |v| <= n
    decreases n
  {
    if n > 0 {
      var rest := set r | r in v && r < n - 1;
      FewBelow(rest, n - 1);
      assert n - 1 in v ==> v == rest + {n - 1};
      assert n - 1 !in v ==> v == rest;
    } else {
      assert v == {};
    }
  }

  lemma {:induction false} FewRegs(v: set<Reg>)
    ensures |v| < 12
  {
    FewBelow(v, 11);
  }

  /** Every index reached so far is settled or still waiting. */
  predicate Progress(p: seq<Insn>, arity: int -> int, sol: Solution, w: map<int, set<Reg>>, out: set<Reg>, work: seq<int>) {
    forall i | i in w :: i in work || Settled(p, arity, sol, w, out, i)
  }

  lemma {:induction false} SettledStays(p: seq<Insn>, arity: int -> int, sol: Solution, w: map<int, set<Reg>>, out: set<Reg>,
                                        sol': Solution, w': map<int, set<Reg>>, out': set<Reg>, i: int)
    requires Settled(p, arity, sol, w, out, i) && out <= out'
    requires forall k | k in sol :: k in sol' && sol'[k] == sol[k]
    requires forall k | k in w :: k in w' && w'[k] <= w[k]
    requires i in w' && w'[i] == w[i]
    ensures Settled(p, arity, sol', w', out', i)
  {
  }

  predicate Extends(sol: Solution, sol': Solution) {
    forall k | k in sol :: k in sol' && sol'[k] == sol[k]
  }

  lemma {:induction false} SoundStays(p: seq<Insn>, arity: int -> int, sol: Solution, sol': Solution, start: int)
    requires SoundAt(p, arity, sol, start) && Extends(sol, sol')
    ensures SoundAt(p, arity, sol', start)
  {
    var w, out := sol[start].written, sol[start].out;
    forall i | i in w
      ensures Settled(p, arity, sol', w, out, i)
    {
      assert Settled(p, arity, sol, w, out, i);
      SettledStays(p, arity, sol, w, out, sol', w, out, i);
    }
  }

  /** Passes the written set `v` on to successor `j`: the merge of one edge. */
  method Merge(w: map<int, set<Reg>>, work: seq<int>, j: int, v: set<Reg>, ghost n: nat)
    returns (w': map<int, set<Reg>>, work': seq<int>)
    requires 0 <= j < n
    ensures j in w' && w'[j] == (if j in w then v * w[j] else v)
    ensures forall k | k in w && k != j :: k in w' && w'[k] == w[k]
    ensures forall k | k in w' :: k in w || k == j
    ensures (w' == w && work' == work) || (work' == work + [j] && Room(w', n) < Room(w, n))
    ensures j in w && w'[j] == w[j] ==> w' == w && work' == work
  {
    var next := v;
    if j in w {
      next := next * w[j];
      if next == w[j] {
        assert w[j := next] == w;
        return w, work;
      }
    } else {
      FewRegs(v);
    }
    RoomShrinks(w, n, j, next);
    return w[j := next], work + [j];
  }

  // What the recursion keeps.

  ghost predicate Consistent(p: seq<Insn>, arity: int -> int, memo: map<int, set<Reg>>, sol: Solution) {
    Sound(p, arity, sol) && Least(p, arity, sol) && memo.Keys == sol.Keys && forall k | k in memo :: memo[k] == sol[k].out
  }

  /** The numbers below `n`: functions that may still be entered shrink as calls nest. */
  ghost function Numbers(n: nat): (s: set<int>)
    ensures forall i: int :: i in s <==> 0 <= i < n
  {
    if n == 0 then {} else Numbers(n - 1) + {n - 1}
  }

  lemma {:induction false} UnderVisit(p: seq<Insn>, arity: int -> int, sol: Solution, start: int, w: map<int, set<Reg>>,
                                      out: set<Reg>, i: nat, use: set<Reg>)
    requires Least(p, arity, sol) && Under(p, arity, start, w, out) && i in w && i < |p|
    requires IsStaticCall(p, i) ==> Goal(p, i) in sol
    requires use == UseOf(p, arity, sol, i)
    ensures Under(p, arity, start, w, out + (use - w[i]))
  {
    forall other: Solution | Sound(p, arity, other) && start in other
      ensures use - w[i] <= other[start].out
    {
      assert SoundAt(p, arity, other, start);
      assert Settled(p, arity, other, other[start].written, other[start].out, i);
    }
  }

  /** Any sound solution reaches the successors of `i` with at most `v` written. */
  ghost predicate UnderEdges(p: seq<Insn>, arity: int -> int, start: int, succ: seq<int>, v: set<Reg>) {
    forall other: Solution | Sound(p, arity, other) && start in other ::
      forall k | 0 <= k < |succ| :: succ[k] in other[start].written && other[start].written[succ[k]] <= v
  }

  lemma {:induction false} UnderFollows(p: seq<Insn>, arity: int -> int, start: int, w: map<int, set<Reg>>, out: set<Reg>, i: nat)
    requires Under(p, arity, start, w, out) && i in w && i < |p|
    ensures UnderEdges(p, arity, start, Next(p, i), w[i] + Def(p[i]))
  {
    forall other: Solution | Sound(p, arity, other) && start in other
      ensures forall k | 0 <= k < |Next(p, i)| ::
        Next(p, i)[k] in other[start].written && other[start].written[Next(p, i)[k]] <= w[i] + Def(p[i])
    {
      assert SoundAt(p, arity, other, start);
      assert Settled(p, arity, other, other[start].written, other[start].out, i);
    }
  }

  lemma {:induction false} UnderMerge(p: seq<Insn>, arity: int -> int, start: int, w: map<int, set<Reg>>, out: set<Reg>,
                                      succ: seq<int>, v: set<Reg>, k: nat, w': map<int, set<Reg>>)
    requires Under(p, arity, start, w, out) && UnderEdges(p, arity, start, succ, v) && k < |succ|
    requires succ[k] in w' && w'[succ[k]] == (if succ[k] in w then v * w[succ[k]] else v)
    requires forall m | m in w && m != succ[k] :: m in w' && w'[m] == w[m]
    requires forall m | m in w' :: m in w || m == succ[k]
    ensures Under(p, arity, start, w', out)
  {
    forall other: Solution | Sound(p, arity, other) && start in other
      ensures forall m | m in w' :: m in other[start].written && other[start].written[m] <= w'[m]
    {
    }
  }

  /** Merges `v` into every successor. */
  method Spread(w: map<int, set<Reg>>, work: seq<int>, succ: seq<int>, v: set<Reg>,
                ghost p: seq<Insn>, ghost arity: int -> int, ghost start: int, ghost out: set<Reg>)
    returns (w': map<int, set<Reg>>, work': seq<int>)
    requires (forall k | k in w :: 0 <= k <= |p|) && (forall k | k in work :: k in w)
    requires forall k | 0 <= k < |succ| :: 0 <= succ[k] <= |p|
    requires Under(p, arity, start, w, out) && UnderEdges(p, arity, start, succ, v)
    ensures Under(p, arity, start, w', out)
    ensures (forall k | k in w' :: 0 <= k <= |p|) && (forall k | k in work' :: k in w')
    ensures forall m | m in w :: m in w' && w'[m] <= w[m]
    ensures forall m | m in work :: m in work'
    ensures forall m | m in w' && (m !in w || w'[m] != w[m]) :: m in work'
    ensures forall m | m in w' :: m in w || m in succ
    ensures forall m | 0 <= m < |succ| :: succ[m] in w' && w'[succ[m]] <= v
    ensures (w' == w && work' == work) || Room(w', |p| + 1) < Room(w, |p| + 1)
  {
    w', work' := w, work;
    for k := 0 to |succ|
      invariant (forall m | m in w' :: 0 <= m <= |p|) && (forall m | m in work' :: m in w')
      invariant forall m | m in w :: m in w' && w'[m] <= w[m]
      invariant forall m | m in work :: m in work'
      invariant forall m | m in w' && (m !in w || w'[m] != w[m]) :: m in work'
      invariant forall m | m in w' :: m in w || m in succ
      invariant forall m | 0 <= m < k :: succ[m] in w' && w'[succ[m]] <= v
      invariant Under(p, arity, start, w', out)
      invariant (w' == w && work' == work) || Room(w', |p| + 1) < Room(w, |p| + 1)
    {
      ghost var before := w';
      w', work' := Merge(w', work', succ[k], v, |p| + 1);
      UnderMerge(p, arity, start, before, out, succ, v, k, w');
    }
  }

  lemma {:induction false} SpreadSettles(p: seq<Insn>, arity: int -> int, sol: Solution, w: map<int, set<Reg>>,
                                         w': map<int, set<Reg>>, out: set<Reg>, work: seq<int>, i: nat)
    requires i < |p| && i in w
    requires IsJump(p[i]) || p[i].op.CallFunc? ==> 0 <= Goal(p, i)
    requires IsStaticCall(p, i) ==> Goal(p, i) in sol
    requires UseOf(p, arity, sol, i) - w[i] <= out
    requires forall k | k in w && k != i && k !in work :: Settled(p, arity, sol, w, out, k)
    requires forall m | m in w :: m in w' && w'[m] <= w[m]
    requires forall m | m in w' && (m !in w || w'[m] != w[m]) :: m in work
    requires forall m | 0 <= m < |Next(p, i)| :: Next(p, i)[m] in w' && w'[Next(p, i)[m]] <= w[i] + Def(p[i])
    ensures Progress(p, arity, sol, w', out, work)
  {
    forall m | m in w' && m !in work
      ensures Settled(p, arity, sol, w', out, m)
    {
      if m != i {
        SettledStays(p, arity, sol, w, out, sol, w', out, m);
      }
    }
  }

  lemma {:induction false} UnderStart(p: seq<Insn>, arity: int -> int, start: int)
    ensures Under(p, arity, start, map[start := {}], {})
  {
    forall other: Solution | Sound(p, arity, other) && start in other
      ensures start in other[start].written && other[start].written[start] <= {}
    {
      assert SoundAt(p, arity, other, start);
    }
  }

  /** What was accounted for stays so when a callee is added and the result grows. */
  lemma {:induction false} OthersSettled(p: seq<Insn>, arity: int -> int, sol: Solution, sol': Solution, w: map<int, set<Reg>>, was: set<Reg>,
                                         out: set<Reg>, rest: seq<int>, i: int)
    requires Extends(sol, sol') && was <= out && forall k | k in w && k != i && k !in rest :: Settled(p, arity, sol, w, was, k)
    ensures forall k | k in w && k != i && k !in rest :: Settled(p, arity, sol', w, out, k)
  {
    forall k | k in w && k != i && k !in rest
      ensures Settled(p, arity, sol', w, out, k)
    {
      SettledStays(p, arity, sol, w, was, sol', w, out, k);
    }
  }

  // ---------------------------------------------------------------- what is refused

  ghost predicate Edge(p: seq<Insn>, i: int, j: int) {
    0 <= i < |p| && j in Next(p, i)
  }

  ghost predicate Leads(p: seq<Insn>, path: seq<int>) {
    path != [] && forall k | 0 < k < |path| :: Edge(p, path[k - 1], path[k])
  }

  /** Control inside the function at `f` may come to index `i`. */
  ghost predicate Reaches(p: seq<Insn>, f: int, i: int) {
    exists path: seq<int> :: Leads(p, path) && path[0] == f && path[|path| - 1] == i
  }

  /** Outside the program, or a jump or call that leads nowhere. */
  predicate StuckAt(p: seq<Insn>, i: int) {
    !(0 <= i < |p|) || ((IsJump(p[i]) || p[i].op.CallFunc?) && Goal(p, i) < 0)
  }

  ghost predicate Broken(p: seq<Insn>, f: int) {
    exists i :: Reaches(p, f, i) && StuckAt(p, i)
  }

  ghost predicate CallsTo(p: seq<Insn>, f: int, g: int) {
    exists i | 0 <= i < |p| :: Reaches(p, f, i) && IsStaticCall(p, i) && Goal(p, i) == g
  }

  ghost predicate CallChain(p: seq<Insn>, fs: seq<int>) {
    fs != [] && forall k | 0 < k < |fs| :: CallsTo(p, fs[k - 1], fs[k])
  }

  ghost predicate RepeatsAt(fs: seq<int>, a: int, b: int) {
    0 <= a < b < |fs| && fs[a] == fs[b]
  }

  ghost predicate Repeats(fs: seq<int>) {
    exists a, b :: RepeatsAt(fs, a, b)
  }

  ghost predicate Doomed(p: seq<Insn>, fs: seq<int>) {
    CallChain(p, fs) && (Repeats(fs) || Broken(p, fs[|fs| - 1]))
  }

  /** Some chain of static calls from `f` is recursive or ends in a function whose control may get stuck. */
  ghost predicate Refusable(p: seq<Insn>, f: int) {
    exists fs: seq<int> :: Doomed(p, fs) && fs[0] == f
  }

  lemma {:induction false} ReachesItself(p: seq<Insn>, f: int)
    ensures Reaches(p, f, f)
  {
    assert Leads(p, [f]);
  }

  lemma {:induction false} ReachesOn(p: seq<Insn>, f: int, i: nat, j: int)
    requires Reaches(p, f, i) && i < |p| && j in Next(p, i)
    ensures Reaches(p, f, j)
  {
    var path: seq<int> :| Leads(p, path) && path[0] == f && path[|path| - 1] == i;
    var longer := path + [j];
    forall k | 0 < k < |longer|
      ensures Edge(p, longer[k - 1], longer[k])
    {
      if k < |path| {
        assert Edge(p, path[k - 1], path[k]);
      }
    }
    assert Leads(p, longer);
  }

  /** A settled map holds everything the function reaches. */
  lemma {:induction false} SettledHolds(p: seq<Insn>, arity: int -> int, sol: Solution, w: map<int, set<Reg>>, out: set<Reg>, path: seq<int>)
    requires Leads(p, path) && path[0] in w && forall i | i in w :: Settled(p, arity, sol, w, out, i)
    ensures path[|path| - 1] in w
    decreases |path|
  {
    var n := |path| - 1;
    if n > 0 {
      var front := path[..n];
      forall k | 0 < k < n
        ensures Edge(p, front[k - 1], front[k])
      {
        assert Edge(p, path[k - 1], path[k]);
      }
      SettledHolds(p, arity, sol, w, out, front);
      assert Edge(p, path[n - 1], path[n]);
      assert Settled(p, arity, sol, w, out, path[n - 1]);
    }
  }

  lemma {:induction false} ChainGrows(p: seq<Insn>, fs: seq<int>, i: nat)
    requires CallChain(p, fs) && i < |p| && Reaches(p, fs[|fs| - 1], i) && IsStaticCall(p, i)
    ensures CallChain(p, fs + [Goal(p, i)])
  {
    var longer := fs + [Goal(p, i)];
    forall k | 0 < k < |longer|
      ensures CallsTo(p, longer[k - 1], longer[k])
    {
      if k < |fs| {
        assert CallsTo(p, fs[k - 1], fs[k]);
      }
    }
  }

  lemma {:induction false} ChainPart(p: seq<Insn>, fs: seq<int>, a: nat, b: nat)
    requires CallChain(p, fs) && a < b <= |fs|
    ensures CallChain(p, fs[a..b])
  {
    forall k | 0 < k < b - a
      ensures CallsTo(p, fs[a..b][k - 1], fs[a..b][k])
    {
      assert CallsTo(p, fs[a + k - 1], fs[a + k]);
    }
  }

  /** A function that does not get stuck and calls only functions that are not refused is not refused: a chain back
      to it would pass through one of its callees twice. */
  lemma {:induction false} FineFromCallees(p: seq<Insn>, f: int)
    requires !Broken(p, f) && forall g | CallsTo(p, f, g) :: !Refusable(p, g)
    ensures !Refusable(p, f)
  {
    forall fs: seq<int> | Doomed(p, fs) && fs[0] == f
      ensures false
    {
      if |fs| > 1 {
        assert CallsTo(p, fs[0], fs[1]);
        DoomMovesOn(p, fs);
      }
    }
  }

  lemma {:induction false} DoomMovesOn(p: seq<Insn>, fs: seq<int>)
    requires Doomed(p, fs) && |fs| > 1
    ensures Refusable(p, fs[1])
  {
    var rest := fs[1..];
    ChainPart(p, fs, 1, |fs|);
    if Broken(p, fs[|fs| - 1]) {
      assert Doomed(p, rest);
    } else {
      var a, b :| RepeatsAt(fs, a, b);
      if a > 0 {
        assert RepeatsAt(rest, a - 1, b - 1);
        assert Doomed(p, rest);
      } else {
        RoundTrip(p, fs, b);
      }
    }
  }

  lemma {:induction false} RoundTrip(p: seq<Insn>, fs: seq<int>, b: nat)
    requires CallChain(p, fs) && 0 < b < |fs| && fs[0] == fs[b]
    ensures Refusable(p, fs[1])
  {
    var part, round := fs[1..b + 1], fs[1..b + 1] + [fs[1]];
    ChainPart(p, fs, 1, b + 1);
    assert CallsTo(p, fs[0], fs[1]);
    forall k | 0 < k < |round|
      ensures CallsTo(p, round[k - 1], round[k])
    {
      if k < b {
        assert CallsTo(p, part[k - 1], part[k]);
      }
    }
    assert RepeatsAt(round, 0, b);
    assert Doomed(p, round);
  }

  lemma {:induction false} Recursion(p: seq<Insn>, stack: seq<int>, start: int)
    requires CallChain(p, stack + [start]) && start in stack
    ensures Refusable(p, (stack + [start])[0])
  {
    var chain := stack + [start];
    var a :| 0 <= a < |stack| && stack[a] == start;
    assert RepeatsAt(chain, a, |stack|);
    assert Doomed(p, chain);
  }

  lemma {:induction false} Stops(p: seq<Insn>, chain: seq<int>, i: int)
    requires CallChain(p, chain) && Reaches(p, chain[|chain| - 1], i) && StuckAt(p, i)
    ensures Refusable(p, chain[0])
  {
    assert Doomed(p, chain);
  }

  lemma {:induction false} SpreadReaches(p: seq<Insn>, start: int, w: map<int, set<Reg>>, w': map<int, set<Reg>>, i: nat)
    requires i < |p| && i in w && (forall k | k in w :: Reaches(p, start, k)) && forall k | k in w' :: k in w || k in Next(p, i)
    ensures forall k | k in w' :: Reaches(p, start, k)
  {
    forall k | k in w'
      ensures Reaches(p, start, k)
    {
      if k !in w {
        ReachesOn(p, start, i, k);
      }
    }
  }

  /** The function just analysed is not refused. */
  lemma {:induction false} AnalysedIsFine(p: seq<Insn>, arity: int -> int, sol: Solution, start: int, w: map<int, set<Reg>>, out: set<Reg>)
    requires start in w && Progress(p, arity, sol, w, out, []) && AllFine(p, sol)
    ensures !Refusable(p, start)
  {
    forall i | Reaches(p, start, i)
      ensures i in w && Settled(p, arity, sol, w, out, i)
    {
      var path: seq<int> :| Leads(p, path) && path[0] == start && path[|path| - 1] == i;
      SettledHolds(p, arity, sol, w, out, path);
    }
    FineFromCallees(p, start);
  }

  ghost predicate AllFine(p: seq<Insn>, sol: Solution) {
    forall g | g in sol :: !Refusable(p, g)
  }

  /** What instruction `i` reads, callees included.  `chain` is the chain of calls the analysis is in. */
  method UseAt(p: seq<Insn>, arity: int -> int, i: nat, memo: map<int, set<Reg>>, busy: set<int>, ghost sol: Solution, ghost chain: seq<int>)
    returns (r: Result<set<Reg>>, memo': map<int, set<Reg>>, ghost sol': Solution)
    requires Consistent(p, arity, memo, sol) && AllFine(p, sol)
    requires CallChain(p, chain) && (forall b | b in busy :: b in chain) && i < |p| && Reaches(p, chain[|chain| - 1], i)
    ensures Consistent(p, arity, memo', sol') && Extends(sol, sol') && AllFine(p, sol')
    ensures forall b | b in busy && b in memo' :: b in memo
    ensures r.Ok? ==> !StuckAt(p, i) && (IsStaticCall(p, i) ==> Goal(p, i) in sol') && r.value == UseOf(p, arity, sol', i)
    ensures r.Refused? ==> Refusable(p, chain[0])
    decreases Numbers(|p|) - busy, 1
  {
    memo', sol' := memo, sol;
    if (IsJump(p[i]) || p[i].op.CallFunc?) && Goal(p, i) < 0 {
      Stops(p, chain, i);
      return Refused(Unresolved), memo, sol;
    }
    if !p[i].op.CallFunc? {
      return Ok(Use(arity, p[i])), memo, sol;
    }
    if p[Goal(p, i)].fn.GlobalFunc? {
      return Ok(Args), memo, sol;
    }
    ChainGrows(p, chain, i);
    r, memo', sol' := Reads(p, arity, Goal(p, i), memo, busy, sol, chain);
  }

  /** What the worklist keeps for the function at `start`. */
  ghost predicate Working(p: seq<Insn>, arity: int -> int, start: int, sol: Solution, written: map<int, set<Reg>>, out: set<Reg>, work: seq<int>) {
    start in written && written[start] == {} && (forall k | k in written :: Reaches(p, start, k)) &&
    (forall k | k in written :: 0 <= k <= |p|) && (forall k | k in work :: k in written) &&
    Progress(p, arity, sol, written, out, work) && Under(p, arity, start, written, out)
  }

  /** Accounts for index `i`, which reads `use`, and passes on what it writes. */
  method Absorb(p: seq<Insn>, arity: int -> int, start: int, w: map<int, set<Reg>>, out: set<Reg>, rest: seq<int>, i: nat, use: set<Reg>,
                ghost sol: Solution, ghost sol': Solution)
    returns (w': map<int, set<Reg>>, out': set<Reg>, work: seq<int>)
    requires Working(p, arity, start, sol, w, out, rest + [i]) && Extends(sol, sol') && Least(p, arity, sol') && i < |p|
    requires !StuckAt(p, i) && (IsStaticCall(p, i) ==> Goal(p, i) in sol') && use == UseOf(p, arity, sol', i)
    ensures Working(p, arity, start, sol', w', out', work)
    ensures (w' == w && work == rest) || Room(w', |p| + 1) < Room(w, |p| + 1)
  {
    assert i in rest + [i] && i in w;
    assert forall k | k in rest :: k in rest + [i];
    UnderVisit(p, arity, sol', start, w, out, i, use);
    out' := out + (use - w[i]);
    OthersSettled(p, arity, sol, sol', w, out, out', rest, i);
    UnderFollows(p, arity, start, w, out', i);
    w', work := Spread(w, rest, Next(p, i), w[i] + Def(p[i]), p, arity, start, out');
    SpreadSettles(p, arity, sol', w, w', out', work, i);
    SpreadReaches(p, start, w, w', i);
  }

  /** The registers the function at index `start` may read before writing.  It refuses exactly recursion, and
      jumps and calls that lead nowhere, on some chain of static calls; otherwise its result is the least sound
      one. */
  method Reads(p: seq<Insn>, arity: int -> int, start: int, memo: map<int, set<Reg>>, busy: set<int>, ghost sol: Solution, ghost stack: seq<int>)
    returns (r: Result<set<Reg>>, memo': map<int, set<Reg>>, ghost sol': Solution)
    requires Consistent(p, arity, memo, sol) && AllFine(p, sol)
    requires CallChain(p, stack + [start]) && forall b | b in busy :: b in stack
    ensures Consistent(p, arity, memo', sol') && Extends(sol, sol') && AllFine(p, sol')
    ensures forall b | b in busy && b in memo' :: b in memo
    ensures r.Ok? ==> start in sol' && r.value == sol'[start].out
    ensures r.Refused? ==> Refusable(p, (stack + [start])[0])
    decreases Numbers(|p|) - busy, 0
  {
    memo', sol' := memo, sol;
    ghost var chain := stack + [start];
    if start in memo {
      return Ok(memo[start]), memo, sol;
    }
    if start in busy {
      Recursion(p, stack, start);
      return Refused(Recursive), memo, sol;
    }
    ReachesItself(p, start);
    if !(0 <= start < |p|) {
      Stops(p, chain, start);
      return Refused(LeavesProgram), memo, sol;
    }
    var written, work, out: set<Reg> := map[start := {}], [start], {};
    UnderStart(p, arity, start);
    while work != []
      invariant Consistent(p, arity, memo', sol') && Extends(sol, sol') && AllFine(p, sol')
      invariant forall b | b in busy + {start} && b in memo' :: b in memo
      invariant Working(p, arity, start, sol', written, out, work)
      decreases Room(written, |p| + 1), |work|
    {
      var i, rest := work[|work| - 1], work[..|work| - 1];
      assert work == rest + [i] && i in work && i in written;
      if i == |p| {
        Stops(p, chain, i);
        return Refused(LeavesProgram), memo', sol';
      }
      ghost var before := sol';
      var use;
      use, memo', sol' := UseAt(p, arity, i, memo', busy + {start}, sol', chain);
      if use.Refused? {
        return use, memo', sol';
      }
      written, out, work := Absorb(p, arity, start, written, out, rest, i, use.value, before, sol');
    }
    AnalysedIsFine(p, arity, sol', start, written, out);
    ghost var done := sol';
    memo', sol' := memo'[start := out], sol'[start := Facts(written, out)];
    Publish(p, arity, done, start, written, out);
    return Ok(out), memo', sol';
  }

  lemma {:induction false} Publish(p: seq<Insn>, arity: int -> int, sol: Solution, start: int, w: map<int, set<Reg>>, out: set<Reg>)
    requires Sound(p, arity, sol) && Least(p, arity, sol) && start !in sol
    requires start in w && w[start] == {} && Progress(p, arity, sol, w, out, []) && Under(p, arity, start, w, out)
    ensures var sol' := sol[start := Facts(w, out)]; Sound(p, arity, sol') && Least(p, arity, sol')
  {
    var sol' := sol[start := Facts(w, out)];
    forall k | k in sol'
      ensures SoundAt(p, arity, sol', k)
    {
      if k == start {
        forall i | i in w
          ensures Settled(p, arity, sol', w, out, i)
        {
          SettledStays(p, arity, sol, w, out, sol', w, out, i);
        }
      } else {
        SoundStays(p, arity, sol, sol', k);
      }
    }
  }

  /** What a least sound solution reports for a function. */
  ghost predicate Reported(p: seq<Insn>, arity: int -> int, sol: Solution, start: int, out: set<Reg>) {
    Sound(p, arity, sol) && Least(p, arity, sol) && start in sol && out == sol[start].out - {0}
  }

  /** The entry point: R1-R5 only, as the least sound solution has them. */
  method Compute(p: seq<Insn>, arity: int -> int, start: int) returns (r: Result<set<Reg>>)
    ensures r.Ok? ==> exists sol: Solution :: Reported(p, arity, sol, start, r.value)
    ensures r.Refused? <==> Refusable(p, start)
  {
    var found, memo;
    ghost var sol;
    found, memo, sol := Reads(p, arity, start, map[], {}, map[], []);
    if found.Refused? {
      return found;
    }
    r := Ok(found.value - {0});
    assert Reported(p, arity, sol, start, r.value);
  }

  // ---------------------------------------------------------------- the free register

  /** The highest argument register the function does not read, or 0. */
  method FreeArg(used: set<Reg>) returns (r: Reg)
    ensures r == 0 <==> Args <= used
    ensures r != 0 ==> r in Args && r !in used && forall q: Reg | q in Args && q > r :: q in used
  {
    for k := 6 downto 1
      invariant forall q: Reg | k <= q <= 5 :: q in used
    {
      if k !in used {
        return k;
      }
    }
    return 0;
  }

  /** Whatever is passed in that register: entered with any two values of it, the function runs the same. */
  lemma {:induction false} FreeRegisterIsFree(env: Env, L: Loaded, sol: Solution, start: nat, r: Reg, s: State, v: Value, n: nat)
    requires Sound(L.insns, env.arity, sol) && start in sol && start < |L.insns| && r in Args && r !in sol[start].out
    requires |s.regs| == 11 && s.pc == Slot(L.insns, start)
    ensures FreeTwinOutcome(L.insns, sol, r, Run(env, L, s, n), Run(env, L, s.(regs := s.regs[r := v]), n))
  {
    var t := s.(regs := s.regs[r := v]);
    IndexOfSlot(L.insns, start);
    assert SoundAt(L.insns, env.arity, sol, start);
    assert Unread(L.insns, sol, r, start, start);
    FreeArgument(env, L, sol, r, s, t, n);
  }
}
