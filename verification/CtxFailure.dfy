/** The run in which the program of CtxExample loses the context from the place the tracker names. */
module CtxFailure {
  import opened Machine
  import opened CtxDomain
  import opened CtxAnalyze
  import opened CtxProve
  import opened CtxMeaning
  import opened CtxKernel
  import opened CtxRuns
  import opened CtxSound
  import opened CtxExample
  import opened CtxStraight

  // ---------------------------------------------------------------- the machine it runs on

  /** bpf_loop runs the callback once on the pointer it was given and returns the number of rounds. */
  function Loop(call: ExtCall, m: Memory): ExtOut {
    if call.id == BPF_LOOP && |call.args| == 4 && call.args[1].Func?
    then Invoke(call.args[1].addr, [Num(0), call.args[2], Undef, Undef, Undef], m, 0)
    else Done(Num(0), m)
  }

  function Host(): Env {
    Env((_, _, _, _, _) => 0, (_, _) => 0, (_, _, _, _) => false, (_, _, _, _, _) => Num(0), (_, _, _) => Num(0),
        _ => 4, (call: ExtCall, m: Memory) => Loop(call, m), (_, _, m: Memory) => Done(Num(1), m))
  }

  /** The loop may hand its callback the frame of f, and bpf_loop is the helper that runs one. */
  function TheWorld(w: Flow, out: seq<Verdict>): World {
    World(Host(), w, Loaded(w.p, a => a, a => a), Grants(_ => {1}, (ins: Insn) => ins.op.CallHelper? && ins.imm == BPF_LOOP), out)
  }

  // ---------------------------------------------------------------- the run

  const CALLBACK: Value := Func(11)

  function EmptyStack(): Memory {
    (_, _) => Frag(Num(0), 0)
  }

  function SavedStack(): Memory {
    StoreBytes(EmptyStack(), Frame(1), -24, 8, CTX)
  }

  function LostStack(): Memory {
    StoreBytes(SavedStack(), Frame(1), -24, 8, Num(0))
  }

  const MAIN := Saved(3, Undef, Undef, Undef, Undef, Plain)
  const LOOP := Saved(10, Undef, Undef, Undef, Undef, Token(0))

  function InF(pc: int, r1: Value, r3: Value, r4: Value, m: Memory): Config {
    Config(State(pc, [Undef, r1, CALLBACK, r3, r4, Undef, Undef, Undef, Undef, Undef, FramePtr(1)], m, [MAIN], []), [0, 0])
  }

  function InCallback(pc: int, r0: Value, m: Memory): Config {
    Config(State(pc, [r0, Num(0), Ptr(Frame(1), -16), Undef, Undef, Undef, Undef, Undef, Undef, Undef, FramePtr(2)], m,
                 [MAIN, LOOP], [TheCall()]), [0, -16, 0])
  }

  function TheCall(): ExtCall {
    ExtCall(Helper, BPF_LOOP, [Num(1), CALLBACK, Ptr(Frame(1), -16), Num(0)])
  }

  function At(n: nat): Config {
    match n
    case 0 => Config(State(0, EntryRegs(CTX, Undef, Undef, Undef, Undef, 0), EmptyStack(), [], []), [0])
    case 1 => Config(State(2, EntryRegs(CTX, CALLBACK, Undef, Undef, Undef, 0), EmptyStack(), [], []), [0])
    case 2 => InF(4, CTX, Undef, Undef, EmptyStack())
    case 3 => InF(5, CTX, Undef, Undef, SavedStack())
    case 4 => InF(6, CTX, FramePtr(1), Undef, SavedStack())
    case 5 => InF(7, CTX, Ptr(Frame(1), -16), Undef, SavedStack())
    case 6 => InF(8, Num(1), Ptr(Frame(1), -16), Undef, SavedStack())
    case 7 => InF(9, Num(1), Ptr(Frame(1), -16), Num(0), SavedStack())
    case 8 => InCallback(11, Undef, SavedStack())
    case 9 => InCallback(12, Undef, LostStack())
    case 10 => InCallback(13, Num(0), LostStack())
    case _ => Config(State(10, ReturnRegs(Num(1), LOOP, 1), LostStack(), [MAIN], [TheCall()]), [0, -16])
  }

  function TheRun(): (run: seq<Config>)
    ensures |run| == 12
  {
    seq(12, n requires 0 <= n < 12 => At(n))
  }

  /** One step of it, on the sample program. */
  ghost predicate Moves(w: Flow, c: Config, c': Config) {
    var k := TheWorld(w, []);
    Next(k.env, k.w, k.L, k.grants, c, c')
  }

  lemma {:induction false} TakesAddress(w: Flow)
    requires Sample(w)
    ensures Moves(w, At(0), At(1))
  {
    Slots(w, 0);
    References(w);
    Slots(w, 10);
    assert w.p[0] == InsnAt(0);
  }

  lemma {:induction false} EntersF(w: Flow)
    requires Sample(w)
    ensures Moves(w, At(1), At(2))
  {
    Slots(w, 1);
    References(w);
    Slots(w, 3);
    assert w.p[1] == InsnAt(1);
  }

  lemma {:induction false} SavesContext(w: Flow)
    requires Sample(w)
    ensures Moves(w, At(2), At(3))
  {
    Slots(w, 3);
    assert w.p[3] == InsnAt(3);
  }

  lemma {:induction false} CopiesFramePointer(w: Flow)
    requires Sample(w)
    ensures Moves(w, At(3), At(4))
  {
    Slots(w, 4);
    assert w.p[4] == InsnAt(4);
  }

  lemma {:induction false} StepsDown(w: Flow)
    requires Sample(w)
    ensures Moves(w, At(4), At(5))
  {
    Slots(w, 5);
    assert w.p[5] == InsnAt(5);
  }

  lemma {:induction false} SetsRounds(w: Flow)
    requires Sample(w)
    ensures Moves(w, At(5), At(6))
  {
    Slots(w, 6);
    assert w.p[6] == InsnAt(6);
  }

  lemma {:induction false} SetsFlags(w: Flow)
    requires Sample(w)
    ensures Moves(w, At(6), At(7))
  {
    Slots(w, 7);
    assert w.p[7] == InsnAt(7);
  }

  lemma {:induction false} LoopLow(args: seq<Value>)
    requires args == TheCall().args
    ensures LowAfter(0, args, 1) == -16 && FramesIn(args) == {1}
  {
    assert args[..3][..2][..1] == [Num(1)] && args[..3][..2] == [Num(1), CALLBACK] && args[..3] == [Num(1), CALLBACK, Ptr(Frame(1), -16)];
    assert LowAfter(0, args[..3][..2][..1], 1) == 0;
    assert LowAfter(0, args[..3][..2], 1) == 0;
    assert LowAfter(0, args[..3], 1) == -16;
    assert args[2] == Ptr(Frame(1), -16);
  }

  /** The helper does nothing but run the callback whose address the program took. */
  lemma {:induction false} LoopIsLawful(w: Flow)
    requires Sample(w)
    ensures var k := TheWorld(w, []);
      OutLaw(w, k.L, k.grants, Loop(TheCall(), SavedStack()), SavedStack(), [0, -16], {}, {1})
  {
    References(w);
    Slots(w, 10);
    assert w.p[0] == InsnAt(0);
    assert IsCallback(w, w.fns[2].lo);
  }

  lemma {:induction false} LoopGivesFrame(w: Flow)
    ensures var k := TheWorld(w, []);
      CallOut(k.env, InsnAt(8), At(7).s.regs) == TheCall() && LowNow(k.env, At(7), InsnAt(8)) == [0, -16]
  {
    var k := TheWorld(w, []);
    var call := CallOut(k.env, InsnAt(8), At(7).s.regs);
    assert call.args == TheCall().args;
    LoopLow(call.args);
  }

  lemma {:induction false} LoopLaw(w: Flow)
    requires Sample(w)
    ensures var k := TheWorld(w, []); CallOutLaw(k.env, w, k.L, k.grants, At(7), InsnAt(8))
  {
    LoopGivesFrame(w);
    LoopLow(TheCall().args);
    LoopIsLawful(w);
  }

  lemma {:induction false} LoopSteps(w: Flow)
    requires Sample(w)
    ensures var k := TheWorld(w, []); Step(k.env, k.L, At(7).s) == Running(At(8).s) && IndexOf(w.p, 9) == 8
  {
    Slots(w, 8);
    assert w.p[8] == InsnAt(8);
    LoopStarts(w);
  }

  lemma {:induction false} LoopStarts(w: Flow)
    ensures var k := TheWorld(w, []); External(k.env, k.L, At(7).s, InsnAt(8)) == Running(At(8).s)
  {
    LoopGivesFrame(w);
  }

  lemma {:induction false} CallbackMoves(w: Flow, c: Config, c': Config, i: nat)
    requires var k := TheWorld(w, []);
      |c.s.regs| == 11 && |c.low| == |c.s.calls| + 1 && Step(k.env, k.L, c.s) == Running(c'.s) &&
      i < |w.p| && IndexOf(w.p, c.s.pc) == i && w.p[i].op.CallHelper? && CallOutLaw(k.env, w, k.L, k.grants, c, w.p[i]) &&
      c'.low == LowNow(k.env, c, w.p[i]) + [0]
    requires |c'.s.calls| > |c.s.calls| && FreshFrame(c'.s.mem, |c'.s.calls|)
    ensures Moves(w, c, c')
  {
  }

  lemma {:induction false} RunsLoop(w: Flow)
    requires Sample(w)
    ensures Moves(w, At(7), At(8))
  {
    LoopSteps(w);
    LoopLaw(w);
    LoopGivesFrame(w);
    assert w.p[8] == InsnAt(8);
    CallbackMoves(w, At(7), At(8), 8);
  }

  lemma {:induction false} Overwrites(w: Flow)
    requires Sample(w)
    ensures Moves(w, At(8), At(9))
  {
    Slots(w, 10);
    assert w.p[10] == InsnAt(10);
  }

  lemma {:induction false} ClearsResult(w: Flow)
    requires Sample(w)
    ensures Moves(w, At(9), At(10))
  {
    Slots(w, 11);
    assert w.p[11] == InsnAt(11);
  }

  lemma {:induction false} LeavesLoop(w: Flow)
    requires Sample(w)
    ensures Moves(w, At(10), At(11))
  {
    Slots(w, 12);
    assert w.p[12] == InsnAt(12);
  }

  lemma {:induction false} RunMoves(w: Flow, n: nat)
    requires Sample(w) && n < 11
    ensures Moves(w, At(n), At(n + 1))
  {
    match n {
      case 0 => TakesAddress(w);
      case 1 => EntersF(w);
      case 2 => SavesContext(w);
      case 3 => CopiesFramePointer(w);
      case 4 => StepsDown(w);
      case 5 => SetsRounds(w);
      case 6 => SetsFlags(w);
      case 7 => RunsLoop(w);
      case 8 => Overwrites(w);
      case 9 => ClearsResult(w);
      case 10 => LeavesLoop(w);
    }
  }

  lemma {:induction false} RunIsLawful(w: Flow, out: seq<Verdict>)
    requires Sample(w)
    ensures IsRun(TheWorld(w, out), TheRun())
  {
    var k, run := TheWorld(w, out), TheRun();
    forall n | 0 <= n < |run| - 1
      ensures MovesAt(k, run, n)
    {
      RunMoves(w, n);
    }
    assert run[0] == At(0);
  }

  // ---------------------------------------------------------------- what goes wrong

  lemma {:induction false} PlaceIsClaimed(w: Flow, out: seq<Verdict>)
    requires Sample(w) && Concluded(w, out)
    ensures out[1].Proven? && 9 in out[1].states && Shaped(out[1].states[9]) && Claims(out[1].states[9], StackSlot(-24))
  {
    CalleeProven(w, out);
    ChainAtCall(w);
    Calls(w, Chain(w, 1, 8));
    ThirdSlotClaimed(Chain(w, 1, 9));
  }

  lemma {:induction false} ThirdSlotClaimed(t: Known)
    requires Shaped(t) && t.slots[0].Other? && t.slots[1].Other? && t.slots[2].TheCtx? && forall r | 6 <= r <= 9 :: t.regs[r].Other?
    ensures Claims(t, StackSlot(-24))
  {
    assert SlotAt(-24) == 2;
  }

  lemma {:induction false} PlaceIsLost(env: Env)
    ensures LoadBytes(env, LostStack(), Frame(1), -24, 8, false) == Num(0)
  {
    var b := Bytes(LostStack(), Frame(1), -24, 8);
    assert forall i | 0 <= i < 8 :: b[i] == Frag(Num(0), i);
  }

  /** Whatever the proof pass concludes about the sample program, it proves f and names fp-24 as the context's place
      after the helper call; in this run, which the verifier allows, fp-24 holds zero there. */
  lemma {:induction false} TrackerIsWrong(w: Flow, out: seq<Verdict>)
    requires Sample(w) && Concluded(w, out)
    ensures var k, run, s := TheWorld(w, out), TheRun(), TheRun()[11].s;
      Verified(w) && AllGrounded(w, out) && IsRun(k, run) && IndexOf(w.p, s.pc) == 9 && Within(w, 1, 9) &&
      out[1].Proven? && 9 in out[1].states && Shaped(out[1].states[9]) && Claims(out[1].states[9], StackSlot(-24)) &&
      LoadBytes(k.env, s.mem, Frame(|s.calls|), -24, 8, false) == Num(0)
  {
    SampleIsVerified(w);
    RunIsLawful(w, out);
    PlaceIsClaimed(w, out);
    Slots(w, 9);
    PlaceIsLost(TheWorld(w, out).env);
  }

  /** The condition of the soundness theorem is what it misses: the helper runs a callback the tracker did not see. */
  lemma {:induction false} SampleIsNotRecognised(w: Flow, out: seq<Verdict>)
    requires Sample(w) && Concluded(w, out)
    ensures !Recognised(TheWorld(w, out))
  {
    var k := TheWorld(w, out);
    CalleeProven(w, out);
    ChainAtCall(w);
    var a := Chain(w, 1, 8);
    Calls(w, a);
    assert w.p[8] == InsnAt(8);
    assert out[1].states[8] == a;
    assert !NoClaims(After(w, a, 8));
    assert !RecognisedAt(k, out[1].states[8], 8);
  }

  /** There is such a program. */
  lemma {:induction false} SampleExists() returns (w: Flow)
    ensures Sample(w)
  {
    w := Flow(seq(13, i requires 0 <= i < 13 => InsnAt(i)), [Fn(0, 3, true, 0), Fn(3, 10, false, 0), Fn(10, 13, false, -1)]);
  }
}
