/** Steps that stay in the running function keep the invariant. */
module CtxSteps {
  import opened Machine
  import opened CtxDomain
  import opened CtxAnalyze
  import opened CtxProve
  import opened CtxMeaning
  import opened CtxKernel
  import opened CtxTransfer
  import opened CtxRuns
  import FrameSound
  import Liveness

  // ---------------------------------------------------------------- memory

  lemma {:induction false} DataIsAllowed(v: Value, j: nat, seal: seq<bool>)
    requires !Tracked(v)
    ensures Allowed(v, j, seal)
  {
  }

  /** One frame's bytes after a store and the alias writes that may come with it. */
  lemma {:induction false} StoreKeepsFrame(k: World, b: Book, m: Memory, m1: Memory, m': Memory, j: nat, d: nat, p: Value, at: int, size: nat, v: Value, low: seq<int>)
    requires j <= d < |b.fn| && p.Ptr? && FrameOk(k, b, m, j) && m1 == StoreBytes(m, p.region, at, size, v)
    requires if p.region == Frame(d) then OwnStoreOk(at, size, v) && Allowed(v, d, b.seal) && m' == m1
             else !Tracked(v) && AliasWrites(m1, m', low)
    ensures FrameOk(k, b, m', j)
  {
    forall o: int
      ensures Allowed(m'(Frame(j), o).v, j, b.seal)
      ensures Tracked(m'(Frame(j), o).v) ==> (o - m'(Frame(j), o).k) % 8 == 0
    {
      assert Allowed(m(Frame(j), o).v, j, b.seal);
    }
  }

  lemma {:induction false} StoreTolerable(k: World, c: Config, b: Book, m1: Memory, m': Memory, p: Value, at: int, size: nat, v: Value)
    requires Base(k, c, b) && p.Ptr? && m1 == StoreBytes(c.s.mem, p.region, at, size, v)
    requires var d := |c.s.calls|;
      if p.region == Frame(d) then OwnStoreOk(at, size, v) && Allowed(v, d, b.seal) && m' == m1
      else !Tracked(v) && AliasWrites(m1, m', c.low)
    requires forall j | 0 <= j < |c.s.calls| && Guard(k, b, c.s.calls, j) :: p.region != Frame(j)
    ensures Tolerable(k, c, b, m')
  {
    var d := |c.s.calls|;
    forall j | 0 <= j < |b.fn|
      ensures FrameOk(k, b, m', j)
    {
      assert FrameOk(k, b, c.s.mem, j);
      StoreKeepsFrame(k, b, c.s.mem, m1, m', j, d, p, at, size, v, c.low);
    }
    forall j | 0 <= j < d
      ensures DataOnly(c.s.mem, m', j) && (Guard(k, b, c.s.calls, j) ==> AliasOnly(c.s.mem, m', j, c.low[j]))
    {
    }
  }

  /** A store never reaches a guarded frame. */
  lemma {:induction false} StoreAvoidsGuarded(k: World, c: Config, b: Book, ins: Insn, i: nat)
    requires Inv(k, c, b) && i == IndexOf(k.w.p, c.s.pc) && ins == k.w.p[i]
    requires (ins.op.Store? || ins.op.StoreImm? || ins.op.Atomic?) && c.s.regs[ins.dst].Ptr?
    ensures forall j | 0 <= j < |c.s.calls| && Guard(k, b, c.s.calls, j) :: c.s.regs[ins.dst].region != Frame(j)
  {
    var d := |c.s.calls|;
    forall j | 0 <= j < d && Guard(k, b, c.s.calls, j)
      ensures c.s.regs[ins.dst].region != Frame(j)
    {
      assert Allowed(c.s.regs[ins.dst], d, b.seal);
      if !b.seal[j] {
        assert WritesOwnStackOnly(k.w.p[i]);
      }
    }
  }

  // ---------------------------------------------------------------- loads

  lemma {:induction false} LoadAllowed(k: World, c: Config, b: Book, p: Value, off: int, size: nat, signed: bool)
    requires Base(k, c, b) && p.Ptr? && Allowed(p, |c.s.calls|, b.seal)
    requires LoadLaw(k.env, c.s.mem, p, off, size, signed, |c.s.calls|)
    ensures Allowed(LoadBytes(k.env, c.s.mem, p.region, p.off + off, size, signed), |c.s.calls|, b.seal)
  {
    var d, at := |c.s.calls|, p.off + off;
    if Whole(Bytes(c.s.mem, p.region, at, size)) {
      FirstByte(c.s.mem, p.region, at, size);
      if p.region.Frame? {
        var e := p.region.depth;
        assert FrameOk(k, b, c.s.mem, e) && p.region == Frame(e);
        assert Allowed(c.s.mem(Frame(e), at).v, e, b.seal);
      }
    }
  }

  // ---------------------------------------------------------------- control

  lemma {:induction false} FnContained(k: World, b: Book, c: Config)
    requires WorldOk(k) && BookOk(k, c, b)
    ensures var fn := k.w.fns[b.fn[|c.s.calls|]]; FrameSound.Contained(k.w.p, fn.lo, fn.hi)
  {
    WorldFacts(k);
  }

  /** Where a plain instruction leads, in terms of instructions. */
  ghost predicate Leads(w: Flow, i: nat, i': int)
    requires i < |w.p|
  {
    if Liveness.IsJump(w.p[i])
    then (!w.p[i].op.GotoIndirect? && i' == IndexOf(w.p, Target(w.p, Slot(w.p, i), w.p[i]))) || (w.p[i].op.Branch? && i' == i + 1)
    else i' == i + 1
  }

  lemma {:induction false} StepLeads(k: World, c: Config, b: Book, i: nat)
    requires WorldOk(k) && BookOk(k, c, b) && Located(k, c, b) && i == IndexOf(k.w.p, c.s.pc) && !k.w.p[i].op.Exit?
    requires k.w.p[i].op.CallFunc? || k.w.p[i].op.CallHelper? || k.w.p[i].op.CallKfunc? || k.w.p[i].op.LoadLegacy? || IsPlain(k.w.p[i])
    ensures var f := b.fn[|c.s.calls|];
      (Liveness.FallsThrough(k.w.p[i]) ==> IndexOf(k.w.p, c.s.pc + Width(k.w.p[i])) == i + 1 && Within(k.w, f, i + 1)) &&
      (Liveness.IsJump(k.w.p[i]) ==> Within(k.w, f, IndexOf(k.w.p, Target(k.w.p, c.s.pc, k.w.p[i]))))
  {
    var fn := k.w.fns[b.fn[|c.s.calls|]];
    FnContained(k, b, c);
    assert FrameSound.ContainedAt(k.w.p, fn.lo, fn.hi, i);
    NextSlot(k.w.p, i);
  }

  lemma {:induction false} PlainPc(env: Env, L: Loaded, s: State, ins: Insn, o: State)
    requires |s.regs| == 11 && IsPlain(ins) && Exec(env, L, s, ins) == Running(o)
    ensures o.calls == s.calls && |o.regs| == 11 && o.regs[FP] == s.regs[FP]
    ensures if Liveness.IsJump(ins) then !ins.op.GotoIndirect? && (o.pc == Target(L.insns, s.pc, ins) || (ins.op.Branch? && o.pc == s.pc + 1))
            else o.pc == s.pc + Width(ins)
  {
  }

  lemma {:induction false} PlainLeads(k: World, c: Config, b: Book, i: nat, o: State)
    requires WorldOk(k) && BookOk(k, c, b) && Located(k, c, b) && i == IndexOf(k.w.p, c.s.pc) && IsPlain(k.w.p[i])
    requires Exec(k.env, k.L, c.s, k.w.p[i]) == Running(o)
    ensures Leads(k.w, i, IndexOf(k.w.p, o.pc)) && Within(k.w, b.fn[|c.s.calls|], IndexOf(k.w.p, o.pc)) && o.calls == c.s.calls
  {
    PlainPc(k.env, k.L, c.s, k.w.p[i], o);
    PcLeads(k, c, b, i, o.pc);
  }

  lemma {:induction false} PcLeads(k: World, c: Config, b: Book, i: nat, to: int)
    requires WorldOk(k) && BookOk(k, c, b) && Located(k, c, b) && i == IndexOf(k.w.p, c.s.pc) && IsPlain(k.w.p[i])
    requires var ins := k.w.p[i];
      if Liveness.IsJump(ins) then !ins.op.GotoIndirect? && (to == Target(k.w.p, c.s.pc, ins) || (ins.op.Branch? && to == c.s.pc + 1))
      else to == c.s.pc + Width(ins)
    ensures Leads(k.w, i, IndexOf(k.w.p, to)) && Within(k.w, b.fn[|c.s.calls|], IndexOf(k.w.p, to))
  {
    StepLeads(k, c, b, i);
  }

  /** A proved function's next state is covered by its analysis. */
  lemma {:induction false} AnalysisFollows(k: World, f: nat, i: nat, i': nat)
    requires WorldOk(k) && f < |k.out| && k.out[f].Proven? && i in k.out[f].states && i < |k.w.p| && !k.w.p[i].op.Exit?
    requires Leads(k.w, i, i')
    ensures var states := k.out[f].states;
      Shaped(states[i]) && i' in states && Shaped(states[i']) && Covers(states[i'], After(k.w, states[i], i))
  {
    WorldFacts(k);
    var states := k.out[f].states;
    assert Grounded(k.w, k.out, f);
    assert Closed(k.w, f, states, i);
    var succ := Successors(k.w, f, i).value;
    assert exists n | 0 <= n < |succ| :: succ[n] == i' by {
      if Liveness.IsJump(k.w.p[i]) && i' == IndexOf(k.w.p, Target(k.w.p, Slot(k.w.p, i), k.w.p[i])) {
        assert succ[0] == i';
      } else {
        assert succ[|succ| - 1] == i';
      }
    }
    var n :| 0 <= n < |succ| && succ[n] == i';
    assert Reached(states, succ[n], After(k.w, states[i], i));
  }

  lemma {:induction false} TopFollows(k: World, c: Config, c': Config, b: Book, i: nat)
    requires WorldOk(k) && BookOk(k, c, b) && BookOk(k, c', b) && TopOk(k, c, b) && i == IndexOf(k.w.p, c.s.pc)
    requires |c'.s.calls| == |c.s.calls| && !k.w.p[i].op.Exit?
    requires Leads(k.w, i, IndexOf(k.w.p, c'.s.pc)) && IndexOf(k.w.p, c'.s.pc) >= 0
    requires var f := b.fn[|c.s.calls|]; k.out[f].Proven? ==> Describes(After(k.w, k.out[f].states[i], i), c'.s, c'.low[|c.s.calls|])
    ensures TopOk(k, c', b)
  {
    var f := b.fn[|c.s.calls|];
    if k.out[f].Proven? {
      var states, i' := k.out[f].states, IndexOf(k.w.p, c'.s.pc);
      AnalysisFollows(k, f, i, i');
      DescribesUp(After(k.w, states[i], i), states[i'], c'.s.regs, c'.s.mem, |c.s.calls|);
    }
  }

  // ---------------------------------------------------------------- registers

  lemma {:induction false} AluAllowed(env: Env, ins: Insn, regs: seq<Value>, d: nat, seal: seq<bool>)
    requires ins.op.Alu? && |regs| == 11 && AllAllowed(regs, d, seal)
    ensures Allowed(AluValue(env, ins.op, ins.off, regs[ins.dst], Operand(ins, ins.op.fromReg, regs)), d, seal)
  {
    assert Allowed(regs[ins.dst], d, seal) && Allowed(regs[ins.src], d, seal);
  }

  lemma {:induction false} SetAllowed(regs: seq<Value>, r: Reg, v: Value, d: nat, seal: seq<bool>)
    requires |regs| == 11 && AllAllowed(regs, d, seal) && Allowed(v, d, seal)
    ensures AllAllowed(regs[r := v], d, seal)
  {
  }

  lemma {:induction false} AtomicAllowed(k: World, c: Config, b: Book, ins: Insn)
    requires Inv(k, c, b) && ins.op.Atomic? && c.s.regs[ins.dst].Ptr? && AtomicLaw(k.env, c.s, ins, |c.s.calls|)
    ensures var d, p := |c.s.calls|, c.s.regs[ins.dst];
      var was := LoadBytes(k.env, c.s.mem, p.region, p.off + ins.off, ins.op.size, false);
      var v := k.env.atomic(ins.op.code, ins.op.size, was, c.s.regs[ins.src], c.s.regs[0]);
      Allowed(was, d, b.seal) && Allowed(v, d, b.seal)
  {
    var d, p := |c.s.calls|, c.s.regs[ins.dst];
    assert Allowed(p, d, b.seal);
    LoadAllowed(k, c, b, p, ins.off, ins.op.size, false);
    assert Allowed(c.s.regs[ins.src], d, b.seal) && Allowed(c.s.regs[0], d, b.seal);
  }

  lemma {:induction false} PlainAllowed(k: World, c: Config, b: Book, i: nat, o: State)
    requires WorldOk(k) && Inv(k, c, b) && i == IndexOf(k.w.p, c.s.pc) && IsPlain(k.w.p[i]) && Law(k.env, k.w, k.L, k.grants, c, i)
    requires Exec(k.env, k.L, c.s, k.w.p[i]) == Running(o)
    ensures AllAllowed(o.regs, |c.s.calls|, b.seal)
  {
    var s, ins, d, seal := c.s, k.w.p[i], |c.s.calls|, b.seal;
    if ins.op.Alu? {
      AluAllowed(k.env, ins, s.regs, d, seal);
    } else if ins.op.Load? {
      var p := s.regs[ins.src];
      assert Allowed(p, d, seal);
      LoadAllowed(k, c, b, p, ins.off, ins.op.size, ins.op.signed);
    } else if ins.op.Atomic? {
      AtomicAllowed(k, c, b, ins);
    }
  }

  // ---------------------------------------------------------------- the step

  /** The value an instruction stores. */
  ghost function StoredValue(env: Env, s: State, ins: Insn): Value
    requires |s.regs| == 11
  {
    if ins.op.Store? then s.regs[ins.src]
    else if ins.op.Atomic? && s.regs[ins.dst].Ptr? then
      var p := s.regs[ins.dst];
      env.atomic(ins.op.code, ins.op.size, LoadBytes(env, s.mem, p.region, p.off + ins.off, ins.op.size, false), s.regs[ins.src], s.regs[0])
    else Num(ins.imm)
  }

  lemma {:induction false} StoreStored(k: World, c: Config, b: Book, i: nat, o: State)
    requires WorldOk(k) && Inv(k, c, b) && i == IndexOf(k.w.p, c.s.pc) && Law(k.env, k.w, k.L, k.grants, c, i)
    requires k.w.p[i].op.Store? || k.w.p[i].op.StoreImm? || k.w.p[i].op.Atomic?
    requires Exec(k.env, k.L, c.s, k.w.p[i]) == Running(o)
    ensures var ins, p, d := k.w.p[i], c.s.regs[k.w.p[i].dst], |c.s.calls|;
      var v := StoredValue(k.env, c.s, ins);
      p.Ptr? && o.mem == StoreBytes(c.s.mem, p.region, p.off + ins.off, ins.op.size, v) &&
      StoreLaw(p, ins.off, ins.op.size, v, d) && Allowed(v, d, b.seal)
  {
    var ins, d := k.w.p[i], |c.s.calls|;
    if ins.op.Atomic? {
      AtomicAllowed(k, c, b, ins);
    } else if ins.op.Store? {
      assert Allowed(c.s.regs[ins.src], d, b.seal);
    }
  }

  lemma {:induction false} PlainTolerable(k: World, c: Config, c': Config, b: Book, i: nat, o: State)
    requires WorldOk(k) && Inv(k, c, b) && i == IndexOf(k.w.p, c.s.pc) && IsPlain(k.w.p[i]) && Law(k.env, k.w, k.L, k.grants, c, i)
    requires Exec(k.env, k.L, c.s, k.w.p[i]) == Running(o)
    requires if StoresElsewhere(c.s, k.w.p[i]) then AliasWrites(o.mem, c'.s.mem, c.low) else c'.s.mem == o.mem
    ensures Tolerable(k, c, b, c'.s.mem)
  {
    var ins := k.w.p[i];
    if ins.op.Store? || ins.op.StoreImm? || ins.op.Atomic? {
      var p := c.s.regs[ins.dst];
      StoreStored(k, c, b, i, o);
      StoreAvoidsGuarded(k, c, b, ins, i);
      StoreTolerable(k, c, b, o.mem, c'.s.mem, p, p.off + ins.off, ins.op.size, StoredValue(k.env, c.s, ins));
    } else {
      assert c'.s.mem == c.s.mem;
    }
  }

  lemma {:induction false} PlainDescribes(k: World, c: Config, c': Config, b: Book, i: nat, o: State, a: Known)
    requires WorldOk(k) && Inv(k, c, b) && i == IndexOf(k.w.p, c.s.pc) && IsPlain(k.w.p[i]) && Law(k.env, k.w, k.L, k.grants, c, i)
    requires Exec(k.env, k.L, c.s, k.w.p[i]) == Running(o) && c'.s == o.(mem := c'.s.mem)
    requires if StoresElsewhere(c.s, k.w.p[i]) then AliasWrites(o.mem, c'.s.mem, c.low) else c'.s.mem == o.mem
    requires Describes(a, c.s, c.low[|c.s.calls|])
    ensures Describes(After(k.w, a, i), c'.s, c.low[|c.s.calls|])
  {
    InvIsTidy(k, c, b);
    var ins := k.w.p[i];
    if ins.op.Store? || ins.op.StoreImm? {
      StoreTransfer(k.env, k.w, k.L, k.grants, a, c, c', i, ins);
    } else if ins.op.Atomic? {
      AtomicTransfer(k.env, k.L, a, c, c', ins);
    } else if ins.op.Alu? || ins.op.Load? || ins.op.LoadImm64? || ins.op.LoadFunc? {
      RegisterTransfer(k.env, k.w, k.L, k.grants, a, c, i, ins);
    }
  }

  lemma {:induction false} PlainStep(k: World, c: Config, c': Config, b: Book, i: nat)
    requires WorldOk(k) && Inv(k, c, b) && Next(k.env, k.w, k.L, k.grants, c, c')
    requires i == IndexOf(k.w.p, c.s.pc) && IsPlain(k.w.p[i])
    ensures Inv(k, c', b)
  {
    var o := Exec(k.env, k.L, c.s, k.w.p[i]).s;
    NextPlain(k, c, c', i);
    PlainPc(k.env, k.L, c.s, k.w.p[i], o);
    PlainLeads(k, c, b, i, o);
    PlainTolerable(k, c, c', b, i, o);
    BaseSurvives(k, c, c', b);
    PlainAllowed(k, c, b, i, o);
    PlainTop(k, c, c', b, i, o);
  }

  lemma {:induction false} NextPlain(k: World, c: Config, c': Config, i: nat)
    requires k.L.insns == k.w.p && Next(k.env, k.w, k.L, k.grants, c, c') && i == IndexOf(k.w.p, c.s.pc) && IsPlain(k.w.p[i])
    ensures var r := Exec(k.env, k.L, c.s, k.w.p[i]);
      r.Running? && r.s.calls == c.s.calls && c'.s == r.s.(mem := c'.s.mem) && c'.low == c.low && Law(k.env, k.w, k.L, k.grants, c, i) &&
      if StoresElsewhere(c.s, k.w.p[i]) then AliasWrites(r.s.mem, c'.s.mem, c.low) else c'.s.mem == r.s.mem
  {
    PlainPc(k.env, k.L, c.s, k.w.p[i], Exec(k.env, k.L, c.s, k.w.p[i]).s);
  }

  lemma {:induction false} PlainTop(k: World, c: Config, c': Config, b: Book, i: nat, o: State)
    requires WorldOk(k) && Inv(k, c, b) && i == IndexOf(k.w.p, c.s.pc) && IsPlain(k.w.p[i]) && Law(k.env, k.w, k.L, k.grants, c, i)
    requires Exec(k.env, k.L, c.s, k.w.p[i]) == Running(o) && c'.s == o.(mem := c'.s.mem) && c'.low == c.low
    requires if StoresElsewhere(c.s, k.w.p[i]) then AliasWrites(o.mem, c'.s.mem, c.low) else c'.s.mem == o.mem
    requires BookOk(k, c', b) && |c'.s.calls| == |c.s.calls|
    requires Leads(k.w, i, IndexOf(k.w.p, c'.s.pc)) && IndexOf(k.w.p, c'.s.pc) >= 0
    ensures TopOk(k, c', b)
  {
    var f := b.fn[|c.s.calls|];
    if k.out[f].Proven? {
      PlainDescribes(k, c, c', b, i, o, k.out[f].states[i]);
    }
    TopFollows(k, c, c', b, i);
  }
}
