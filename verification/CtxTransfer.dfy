/** Each instruction that neither calls nor returns leaves the frame as the tracker's transfer says. */
module CtxTransfer {
  import opened Machine
  import opened CtxDomain
  import opened CtxAnalyze
  import opened CtxMeaning
  import opened CtxKernel

  /** What a function sees of itself: its registers, its slots, and how low its frame was given away. */
  ghost predicate Describes(a: Known, s: State, low: int) {
    Shaped(a) && RegsHold(a, s.regs, |s.calls|) && SlotsHold(a, s.mem, |s.calls|) && a.floor <= low
  }

  /** Memory the function can load from holds no pointer into its frame except in that frame, where they are
      aligned; its registers point into no deeper frame. */
  ghost predicate Tidy(s: State) {
    |s.regs| == 11 && Aligned(s.mem, |s.calls|) &&
    (forall r: Region, o: int | (r.Frame? ==> r.depth < |s.calls|) :: !PointsInto(s.mem(r, o).v, |s.calls|)) &&
    (forall r | 0 <= r < 11 :: s.regs[r].Ptr? && s.regs[r].region.Frame? ==> s.regs[r].region.depth <= |s.calls|)
  }

  predicate IsPlain(ins: Insn) {
    !IsCall(ins) && !ins.op.LoadLegacy? && !ins.op.Exit?
  }

  lemma {:induction false} LoadHolds(env: Env, a: Known, s: State, low: int, p: Value, off: int, size: nat, signed: bool, base: Kind)
    requires Describes(a, s, low) && Tidy(s) && p.Ptr? && Means(base, p, |s.calls|) && (p.region.Frame? ==> p.region.depth <= |s.calls|)
    requires LoadLaw(env, s.mem, p, off, size, signed, |s.calls|)
    ensures Means(LoadKind(a, base, off, size, signed), LoadBytes(env, s.mem, p.region, p.off + off, size, signed), |s.calls|)
  {
    var d := |s.calls|;
    if p.region == Frame(d) {
      OwnLoadHolds(env, a, s.mem, d, p.off + off, size, signed);
    } else {
      ForeignLoad(env, s, p.region, p.off + off, size, signed);
    }
  }

  lemma {:induction false} ForeignLoad(env: Env, s: State, r: Region, at: int, size: nat, signed: bool)
    requires Tidy(s) && (r.Frame? ==> r.depth < |s.calls|)
    ensures !PointsInto(LoadBytes(env, s.mem, r, at, size, signed), |s.calls|)
  {
    if Whole(Bytes(s.mem, r, at, size)) {
      FirstByte(s.mem, r, at, size);
    }
  }

  /** Assigning a value of the right kind. */
  lemma {:induction false} Assigned(a: Known, s: State, low: int, r: Reg, k: Kind, v: Value, n: int)
    requires Describes(a, s, low) && KindOk(k) && Means(k, v, |s.calls|)
    ensures var o := SetReg(s, r, v, n); o.Running? ==> Describes(SetKind(a, r, k), o.s, low) && o.s.calls == s.calls
  {
    if r != FP {
      SetHolds(a, s.regs, |s.calls|, r, k, v);
    }
  }

  lemma {:induction false} LoadTransfer(env: Env, a: Known, s: State, low: int, ins: Insn)
    requires Describes(a, s, low) && Tidy(s) && ins.op.Load? && s.regs[ins.src].Ptr?
    requires LoadLaw(env, s.mem, s.regs[ins.src], ins.off, ins.op.size, ins.op.signed, |s.calls|)
    ensures var p, op := s.regs[ins.src], ins.op;
      Means(LoadKind(a, RegKind(a, ins.src), ins.off, op.size, op.signed), LoadBytes(env, s.mem, p.region, p.off + ins.off, op.size, op.signed), |s.calls|)
  {
    RegHolds(a, s.regs, |s.calls|, ins.src);
    LoadHolds(env, a, s, low, s.regs[ins.src], ins.off, ins.op.size, ins.op.signed, RegKind(a, ins.src));
  }

  lemma {:induction false} RegisterTransfer(env: Env, w: Flow, L: Loaded, grants: Grants, a: Known, c: Config, i: nat, ins: Insn)
    requires i < |w.p| && ins == w.p[i] && |c.low| == |c.s.calls| + 1 && Tidy(c.s) && Describes(a, c.s, c.low[|c.s.calls|])
    requires ins.op.Alu? || ins.op.Load? || ins.op.LoadImm64? || ins.op.LoadFunc?
    requires Law(env, w, L, grants, c, i)
    ensures var o := Exec(env, L, c.s, ins); o.Running? ==> Describes(AfterPlain(a, ins), o.s, c.low[|c.s.calls|]) && o.s.calls == c.s.calls
  {
    var s, low := c.s, c.low[|c.s.calls|];
    if ins.op.Alu? {
      AluHolds(env, a, s.regs, |s.calls|, ins);
      Assigned(a, s, low, ins.dst, AluKind(a, ins), AluValue(env, ins.op, ins.off, s.regs[ins.dst], Operand(ins, ins.op.fromReg, s.regs)), 1);
    } else if ins.op.Load? {
      LoadStep(env, L, a, s, low, ins);
    } else if ins.op.LoadImm64? {
      Assigned(a, s, low, ins.dst, Other, env.literal(ins.op.isMap, ins.ref, ins.imm), 2);
    } else {
      Assigned(a, s, low, ins.dst, MaybeFunc, Machine.Func(L.place(Target(L.insns, s.pc, ins))), 2);
    }
  }

  lemma {:induction false} LoadStep(env: Env, L: Loaded, a: Known, s: State, low: int, ins: Insn)
    requires Describes(a, s, low) && Tidy(s) && ins.op.Load?
    requires s.regs[ins.src].Ptr? ==> LoadLaw(env, s.mem, s.regs[ins.src], ins.off, ins.op.size, ins.op.signed, |s.calls|)
    ensures var o := Exec(env, L, s, ins); o.Running? ==> Describes(AfterPlain(a, ins), o.s, low) && o.s.calls == s.calls
  {
    var p, size, signed := s.regs[ins.src], ins.op.size, ins.op.signed;
    if p.Ptr? {
      LoadTransfer(env, a, s, low, ins);
      Assigned(a, s, low, ins.dst, LoadKind(a, RegKind(a, ins.src), ins.off, size, signed), LoadBytes(env, s.mem, p.region, p.off + ins.off, size, signed), 1);
    }
  }

  /** The store's effect on the frame, aliases included. */
  ghost predicate Stored(m: Memory, m': Memory, p: Value, at: int, size: nat, v: Value, d: nat, low: int)
    requires p.Ptr?
  {
    if PointsInto(p, d) then m' == StoreBytes(m, Frame(d), at, size, v) else AliasOnly(m, m', d, low)
  }

  lemma {:induction false} ElsewhereIsAlias(m: Memory, m1: Memory, m': Memory, p: Value, at: int, size: nat, v: Value, d: nat, low: seq<int>)
    requires p.Ptr? && |low| == d + 1 && m1 == StoreBytes(m, p.region, at, size, v)
    requires if PointsInto(p, d) then m' == m1 else AliasWrites(m1, m', low)
    ensures Stored(m, m', p, at, size, v, d, low[d])
  {
  }

  lemma {:induction false} StoreTransfer(env: Env, w: Flow, L: Loaded, grants: Grants, a: Known, c: Config, c': Config, i: nat, ins: Insn)
    requires i < |w.p| && ins == w.p[i] && |c.low| == |c.s.calls| + 1 && Tidy(c.s) && Describes(a, c.s, c.low[|c.s.calls|])
    requires (ins.op.Store? || ins.op.StoreImm?) && Law(env, w, L, grants, c, i)
    requires var o := Exec(env, L, c.s, ins);
      o.Running? && c'.s == o.s.(mem := c'.s.mem) &&
      if StoresElsewhere(c.s, ins) then AliasWrites(o.s.mem, c'.s.mem, c.low) else c'.s.mem == o.s.mem
    ensures Describes(AfterPlain(a, ins), c'.s, c.low[|c.s.calls|])
  {
    var s, d := c.s, |c.s.calls|;
    var p := s.regs[ins.dst];
    RegHolds(a, s.regs, d, ins.dst);
    RegHolds(a, s.regs, d, ins.src);
    var size := ins.op.size;
    var v := if ins.op.Store? then s.regs[ins.src] else Num(ins.imm);
    var k := if ins.op.Store? && size == 8 then RegKind(a, ins.src) else Other;
    ElsewhereIsAlias(s.mem, Exec(env, L, s, ins).s.mem, c'.s.mem, p, p.off + ins.off, size, v, d, c.low);
    StoreHolds(a, s.mem, c'.s.mem, d, c.low[d], RegKind(a, ins.dst), p, ins.off, size, k, v);
  }

  // ---------------------------------------------------------------- atomics

  lemma {:induction false} JoinHolds(a: Known, regs: seq<Value>, d: nat, r: Reg, k: Kind, v: Value, written: bool)
    requires Shaped(a) && RegsHold(a, regs, d) && KindOk(k) && (written ==> Means(k, v, d) && r != FP)
    ensures RegsHold(SetKind(a, r, Join(RegKind(a, r), k)), if written then regs[r := v] else regs, d)
  {
    if r != FP {
      var now := if written then v else regs[r];
      if written {
        HoldsUp(k, Join(a.regs[r], k), v, d);
      } else {
        HoldsUp(a.regs[r], Join(a.regs[r], k), regs[r], d);
      }
      SetHolds(a, regs, d, r, Join(a.regs[r], k), now);
      assert regs[r := regs[r]] == regs;
    }
  }

  /** The registers after an atomic: the fetched value may land in R0 or the source, and the kinds of R0, the
      source and the destination are joined with what it may be. */
  lemma {:induction false} FetchHolds(a: Known, regs: seq<Value>, d: nat, ins: Insn, loaded: Kind, was: Value)
    requires Shaped(a) && RegsHold(a, regs, d) && ins.op.Atomic? && KindOk(loaded) && Means(loaded, was, d)
    requires ins.op.fetch.IntoSrc? ==> ins.src != FP
    ensures var t0 := SetKind(a, 0, Join(RegKind(a, 0), loaded));
      var t1 := SetKind(t0, ins.src, Join(RegKind(t0, ins.src), loaded));
      var t2 := SetKind(t1, ins.dst, Join(RegKind(t1, ins.dst), loaded));
      RegsHold(t2, match ins.op.fetch case NoFetch => regs case IntoSrc => regs[ins.src := was] case IntoR0 => regs[0 := was], d)
  {
    var t0 := SetKind(a, 0, Join(RegKind(a, 0), loaded));
    JoinHolds(a, regs, d, 0, loaded, was, ins.op.fetch.IntoR0?);
    var regs0 := if ins.op.fetch.IntoR0? then regs[0 := was] else regs;
    var t1 := SetKind(t0, ins.src, Join(RegKind(t0, ins.src), loaded));
    JoinHolds(t0, regs0, d, ins.src, loaded, was, ins.op.fetch.IntoSrc?);
    var regs1 := if ins.op.fetch.IntoSrc? then regs0[ins.src := was] else regs0;
    JoinHolds(t1, regs1, d, ins.dst, loaded, was, false);
  }

  lemma {:induction false} FetchedKind(env: Env, a: Known, s: State, low: int, ins: Insn, loaded: Kind)
    requires Describes(a, s, low) && Tidy(s) && ins.op.Atomic? && s.regs[ins.dst].Ptr?
    requires LoadLaw(env, s.mem, s.regs[ins.dst], ins.off, ins.op.size, false, |s.calls|)
    requires loaded == if HoldsPtr(RegKind(a, ins.dst)) || HoldsPtr(RegKind(a, ins.src)) then Any else Other
    ensures var p := s.regs[ins.dst]; Means(loaded, LoadBytes(env, s.mem, p.region, p.off + ins.off, ins.op.size, false), |s.calls|)
  {
    RegHolds(a, s.regs, |s.calls|, ins.dst);
    var p := s.regs[ins.dst];
    if loaded.Other? {
      ForeignLoad(env, s, p.region, p.off + ins.off, ins.op.size, false);
    }
  }

  lemma {:induction false} AtomicTransfer(env: Env, L: Loaded, a: Known, c: Config, c': Config, ins: Insn)
    requires |c.low| == |c.s.calls| + 1 && Tidy(c.s) && Describes(a, c.s, c.low[|c.s.calls|])
    requires ins.op.Atomic? && (c.s.regs[ins.dst].Ptr? ==> AtomicLaw(env, c.s, ins, |c.s.calls|))
    requires var o := Exec(env, L, c.s, ins);
      o.Running? && c'.s == o.s.(mem := c'.s.mem) &&
      if StoresElsewhere(c.s, ins) then AliasWrites(o.s.mem, c'.s.mem, c.low) else c'.s.mem == o.s.mem
    ensures Describes(AfterPlain(a, ins), c'.s, c.low[|c.s.calls|])
  {
    var s, d := c.s, |c.s.calls|;
    var p := s.regs[ins.dst];
    var size, at := ins.op.size, p.off + ins.off;
    var was := LoadBytes(env, s.mem, p.region, at, size, false);
    var v := env.atomic(ins.op.code, size, was, s.regs[ins.src], s.regs[0]);
    RegHolds(a, s.regs, d, ins.dst);
    ElsewhereIsAlias(s.mem, Exec(env, L, s, ins).s.mem, c'.s.mem, p, at, size, v, d, c.low);
    StoreHolds(a, s.mem, c'.s.mem, d, c.low[d], RegKind(a, ins.dst), p, ins.off, size, Any, v);
    var t := StoreKind(a, RegKind(a, ins.dst), ins.off, size, Any);
    assert t.regs == a.regs;
    var loaded := if HoldsPtr(RegKind(t, ins.dst)) || HoldsPtr(RegKind(t, ins.src)) then Any else Other;
    FetchedKind(env, a, s, c.low[d], ins, loaded);
    FetchHolds(t, s.regs, d, ins, loaded, was);
  }
}
