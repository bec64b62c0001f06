/** What holds along every run of a verified program: each live frame of a proved function is as its analysis
    says, whatever the functions, helpers and callbacks below it do. */
module CtxRuns {
  import opened Machine
  import opened CtxDomain
  import opened CtxAnalyze
  import opened CtxProve
  import opened CtxMeaning
  import opened CtxKernel
  import opened CtxTransfer
  import opened CtxCalls

  /** The program, the machine it runs on, and the verdicts. */
  datatype World = World(env: Env, w: Flow, L: Loaded, grants: Grants, out: seq<Verdict>)

  /** Every call by a proved function that may run a callback and is given a pointer into the frame leaves nothing
      exact claimed of the frame.  The tracker sees to this itself when it sees the function pointer. */
  ghost predicate Recognised(k: World) {
    forall f: nat, i: nat | f < |k.out| && k.out[f].Proven? && i in k.out[f].states :: RecognisedAt(k, k.out[f].states[i], i)
  }

  ghost predicate RecognisedAt(k: World, a: Known, i: nat) {
    i < |k.w.p| && Shaped(a) && IsExternal(k.w.p[i]) && k.grants.runs(k.w.p[i]) && Exposed(a) ==> NoClaims(After(k.w, a, i))
  }

  /** The program is verified, the verdicts are grounded, and every callback is recognised; seen only by proofs that
      ask for it. */
  ghost predicate WorldOk(k: World) {
    k.L.insns == k.w.p && |k.out| == |k.w.fns| &&
    forall n: int {:trigger Unsealed(n)} :: Unsealed(n) ==> Verified(k.w) && AllGrounded(k.w, k.out) && Recognised(k)
  }

  lemma {:induction false} WorldFacts(k: World)
    requires WorldOk(k)
    ensures Verified(k.w) && AllGrounded(k.w, k.out) && Recognised(k)
  {
    assert Unsealed(0);
  }

  /** The function each live frame runs, and which waiting frames nothing below points into. */
  datatype Book = Book(fn: seq<nat>, seal: seq<bool>)

  // ---------------------------------------------------------------- values and the frames that hold them

  ghost predicate Allowed(v: Value, j: nat, seal: seq<bool>) {
    (v.Ptr? && v.region.Frame? ==> v.region.depth <= j && (v.region.depth < j && v.region.depth < |seal| ==> !seal[v.region.depth]))
  }

  ghost predicate AllAllowed(vs: seq<Value>, j: nat, seal: seq<bool>) {
    forall i | 0 <= i < |vs| :: Allowed(vs[i], j, seal)
  }

  ghost predicate FrameOk(k: World, b: Book, m: Memory, j: nat)
    requires j < |b.fn|
  {
    Aligned(m, j) && forall o: int :: Allowed(m(Frame(j), o).v, j, b.seal)
  }

  ghost predicate OutsideOk(m: Memory) {
    forall r: Region, o: int | !r.Frame? :: !Tracked(m(r, o).v)
  }

  ghost predicate SavedOk(k: World, b: Book, saved: Saved, j: nat)
    requires j < |b.fn| && j < |b.seal| && b.fn[j] < |k.w.fns|
  {
    Allowed(saved.r6, j, b.seal) && Allowed(saved.r7, j, b.seal) &&
    Allowed(saved.r8, j, b.seal) && Allowed(saved.r9, j, b.seal) &&
    Within(k.w, b.fn[j], IndexOf(k.w.p, saved.ret)) &&
    (saved.resume.Token? ==> forall e | e in k.grants.of(saved.resume.k) :: e <= j && !b.seal[e])
  }

  // ---------------------------------------------------------------- waiting frames

  /** The callee of waiting frame `j` cannot change its slots: nothing below points into it, or the callee
      writes only its own stack. */
  ghost predicate Guard(k: World, b: Book, calls: seq<Saved>, j: nat)
    requires j < |calls| == |b.seal| && |b.fn| == |calls| + 1
  {
    b.seal[j] || (j + 1 == |calls| && calls[j].resume.Plain? && b.fn[j + 1] < |k.w.fns| && WriteFree(k.w, b.fn[j + 1]))
  }

  /** The proved function in frame `j` continues, after its call at `i`, in a state its analysis covers. */
  ghost predicate Suspended(k: World, states: States, i: int, saved: Saved, j: nat) {
    0 <= i < |k.w.p| && i in states && Shaped(states[i]) && i + 1 in states && Shaped(states[i + 1]) && IsCall(k.w.p[i]) &&
    var a := After(k.w, states[i], i);
    Covers(states[i + 1], a) && Weak(a) && !a.regs[0].TheCtx? && !a.regs[0].InFrame? &&
    (forall v: Value | Means(a.regs[0], v, j) :: RegsHold(a, ReturnRegs(v, saved, j), j))
  }

  ghost predicate Shield(k: World, b: Book, calls: seq<Saved>, m: Memory, low: int, a: Known, j: nat)
    requires j < |calls| == |b.seal| && |b.fn| == |calls| + 1 && Shaped(a)
  {
    SlotsHold(a, m, j) && a.floor <= low && (Guard(k, b, calls, j) || NoClaims(a)) &&
    (calls[j].resume.Plain? ==> a.regs[0].Any? || b.seal[j])
  }

  ghost predicate WaitOk(k: World, c: Config, b: Book, j: nat)
    requires j < |c.s.calls| == |b.seal| && |b.fn| == |c.s.calls| + 1 == |c.low| && b.fn[j] < |k.out|
  {
    k.out[b.fn[j]].Proven? ==>
      var states, i := k.out[b.fn[j]].states, IndexOf(k.w.p, c.s.calls[j].ret) - 1;
      Suspended(k, states, i, c.s.calls[j], j) &&
      Shield(k, b, c.s.calls, c.s.mem, c.low[j], After(k.w, states[i], i), j)
  }

  // ---------------------------------------------------------------- the invariant

  ghost predicate BookOk(k: World, c: Config, b: Book) {
    |b.fn| == |c.s.calls| + 1 == |c.low| && |b.seal| == |c.s.calls| && |k.out| == |k.w.fns| &&
    (forall j | 0 <= j < |b.fn| :: b.fn[j] < |k.w.fns| && (j > 0 ==> b.fn[j] != 0)) &&
    (forall j | 0 <= j < |c.low| :: DEEPEST <= c.low[j] <= 0)
  }

  /** Everything but the running function's own registers. */
  ghost predicate Base(k: World, c: Config, b: Book) {
    BookOk(k, c, b) && OutsideOk(c.s.mem) &&
    (forall j | 0 <= j < |b.fn| :: FrameOk(k, b, c.s.mem, j)) &&
    (forall j | 0 <= j < |c.s.calls| :: SavedOk(k, b, c.s.calls[j], j)) &&
    (forall j | 0 <= j < |c.s.calls| :: WaitOk(k, c, b, j))
  }

  ghost predicate Located(k: World, c: Config, b: Book)
    requires BookOk(k, c, b)
  {
    WellFormed(c.s) && Within(k.w, b.fn[|c.s.calls|], IndexOf(k.w.p, c.s.pc)) &&
    AllAllowed(c.s.regs, |c.s.calls|, b.seal)
  }

  /** The running function, if proved, is as its analysis says. */
  ghost predicate TopOk(k: World, c: Config, b: Book)
    requires BookOk(k, c, b)
  {
    var d := |c.s.calls|;
    k.out[b.fn[d]].Proven? ==>
      var states, i := k.out[b.fn[d]].states, IndexOf(k.w.p, c.s.pc);
      i >= 0 && i in states && Describes(states[i], c.s, c.low[d])
  }

  ghost predicate Inv(k: World, c: Config, b: Book) {
    Base(k, c, b) && Located(k, c, b) && TopOk(k, c, b)
  }

  // ---------------------------------------------------------------- frames below the running one

  lemma {:induction false} ShieldSurvives(k: World, b: Book, calls: seq<Saved>, m: Memory, m': Memory, low: int, a: Known, j: nat)
    requires j < |calls| == |b.seal| && |b.fn| == |calls| + 1 && Shaped(a) && Weak(a)
    requires Shield(k, b, calls, m, low, a, j) && (Guard(k, b, calls, j) ==> AliasOnly(m, m', j, low)) && DataOnly(m, m', j)
    ensures Shield(k, b, calls, m', low, a, j)
  {
    if Guard(k, b, calls, j) {
      WeakSurvives(a, m, m', j, low);
    } else {
      ClaimlessSurvives(a, m, m', j);
    }
  }

  /** Writes to memory that keep every frame's bytes in order and leave guarded frames alone. */
  ghost predicate Tolerable(k: World, c: Config, b: Book, m': Memory)
    requires BookOk(k, c, b)
  {
    OutsideOk(m') && (forall j | 0 <= j < |b.fn| :: FrameOk(k, b, m', j)) &&
    (forall j | 0 <= j < |c.s.calls| :: DataOnly(c.s.mem, m', j)) &&
    (forall j | 0 <= j < |c.s.calls| && Guard(k, b, c.s.calls, j) :: AliasOnly(c.s.mem, m', j, c.low[j]))
  }

  lemma {:induction false} BaseSurvives(k: World, c: Config, c': Config, b: Book)
    requires Base(k, c, b) && Tolerable(k, c, b, c'.s.mem) && c'.s.calls == c.s.calls && BookOk(k, c', b)
    requires c'.low[..|c.s.calls|] == c.low[..|c.s.calls|]
    ensures Base(k, c', b)
  {
    forall j | 0 <= j < |c.s.calls|
      ensures SavedOk(k, b, c'.s.calls[j], j) && WaitOk(k, c', b, j)
    {
      assert SavedOk(k, b, c.s.calls[j], j) && WaitOk(k, c, b, j);
      assert c'.low[j] == c'.low[..|c.s.calls|][j] == c.low[j];
      if k.out[b.fn[j]].Proven? {
        var states, i := k.out[b.fn[j]].states, IndexOf(k.w.p, c.s.calls[j].ret) - 1;
        ShieldSurvives(k, b, c.s.calls, c.s.mem, c'.s.mem, c.low[j], After(k.w, states[i], i), j);
      }
    }
  }

  lemma {:induction false} InvIsTidy(k: World, c: Config, b: Book)
    requires Inv(k, c, b)
    ensures Tidy(c.s)
  {
    var d := |c.s.calls|;
    assert FrameOk(k, b, c.s.mem, d);
    forall r: Region, o: int | (r.Frame? ==> r.depth < d)
      ensures !PointsInto(c.s.mem(r, o).v, d)
    {
      if r.Frame? {
        assert FrameOk(k, b, c.s.mem, r.depth);
        assert r == Frame(r.depth);
        assert Allowed(c.s.mem(Frame(r.depth), o).v, r.depth, b.seal);
      }
    }
  }
}
