/** A context saved whole and loaded back is the context again: whichever slot it is saved in and whichever register it
    comes back to, a static function that is then given it is proved in every outcome. */
module CtxReload {
  import opened Machine
  import opened CtxDomain
  import opened CtxAnalyze
  import opened CtxProve
  import opened CtxSound
  import opened CtxStraight
  import CtxWorklist

  /** What one save and one load back do to the tracker's state, whatever it was. */
  lemma {:induction false} SaveAndLoad(w: Flow, a: Known, i: nat, j: nat, r: Reg)
    requires Shaped(a) && j < SLOTS && r != FP && i + 1 < |w.p| && a.regs[1].TheCtx?
    requires w.p[i].op == Store(8) && w.p[i].dst == FP && w.p[i].src == 1 && w.p[i].off == SlotOff(j)
    requires w.p[i + 1].op == Load(8, false) && w.p[i + 1].dst == r && w.p[i + 1].src == FP && w.p[i + 1].off == SlotOff(j)
    ensures After(w, After(w, a, i), i + 1) == a.(slots := a.slots[j := TheCtx], regs := a.regs[r := TheCtx])
  {
    assert SlotAt(SlotOff(j)) == j;
    assert After(w, a, i) == a.(slots := a.slots[j := TheCtx]);
  }

  /** main: *(fp - 8 (j + 1)) = r1; rN = *(fp - 8 (j + 1)); call g; exit.  g, static, takes the context in rN. */
  ghost predicate Sample(w: Flow, j: nat, q: nat) {
    |w.p| == 5 && |w.fns| == 2 && w.fns[0] == Fn(0, 4, true, 0) && w.fns[1] == Fn(4, 5, false, q) && Callee(w, 2) == 4 &&
    w.p[0].op == Store(8) && w.p[0].dst == FP && w.p[0].src == 1 && w.p[0].off == SlotOff(j) &&
    w.p[1].op == Load(8, false) && w.p[1].dst == 1 + q && w.p[1].src == FP && w.p[1].off == SlotOff(j) &&
    w.p[2].op == CallFunc && w.p[3].op == Exit && w.p[4].op == Exit
  }

  lemma {:induction false} EntryIsStraight(w: Flow, j: nat, q: nat)
    requires Sample(w, j, q) && j < SLOTS && q < 5
    ensures IsStraight(w, 0) && IsStraight(w, 1)
  {
    forall i | 0 <= i < 4
      ensures StraightAt(w, 0, i)
    {
    }
  }

  lemma {:induction false} OnlyCaller(w: Flow, j: nat, q: nat, g: nat, i: nat)
    requires Sample(w, j, q) && j < SLOTS && q < 5
    ensures IsCaller(w, 1, g, i) <==> g == 0 && i == 2
  {
  }

  lemma {:induction false} EntryPasses(w: Flow, out: seq<Verdict>, j: nat, q: nat)
    requires Sample(w, j, q) && j < SLOTS && q < 5 && Concluded(w, out)
    ensures out[0].Proven? && Passes(w, out, 1, 0, 2)
  {
    EntryIsStraight(w, j, q);
    EntryIsProven(w, out, j, q);
    LeastIsChain(w, 0, out[0].states, 2);
    ChainAtCall(w, j, q);
  }

  lemma {:induction false} TakesNoAddress(w: Flow, j: nat, q: nat, f: nat)
    requires Sample(w, j, q) && j < SLOTS && q < 5 && f < 2
    ensures Eligible(w, f)
  {
    assert forall i | 0 <= i < 5 :: !w.p[i].op.LoadFunc?;
  }

  lemma {:induction false} EntryIsProven(w: Flow, out: seq<Verdict>, j: nat, q: nat)
    requires Sample(w, j, q) && j < SLOTS && q < 5 && Concluded(w, out) && IsStraight(w, 0)
    ensures out[0].Proven? && Solved(w, 0, out[0].states) && CtxWorklist.Least(w, 0, out[0].states)
  {
    assert Grounded(w, out, 0);
    TakesNoAddress(w, j, q, 0);
    ChainSolves(w, 0);
  }

  lemma {:induction false} ChainAtCall(w: Flow, j: nat, q: nat)
    requires Sample(w, j, q) && j < SLOTS && q < 5 && IsStraight(w, 0)
    ensures Chain(w, 0, 2).regs[1 + q].TheCtx?
  {
    SaveAndLoad(w, Initial(0), 0, j, 1 + q);
    assert Chain(w, 0, 1) == After(w, Initial(0), 0);
    assert Chain(w, 0, 2) == After(w, Chain(w, 0, 1), 1);
  }

  /** For every slot and every argument register, whatever the proof pass concludes about the program, it proves g. */
  lemma {:induction false} CalleeIsProven(w: Flow, out: seq<Verdict>, j: nat, q: nat)
    requires Sample(w, j, q) && j < SLOTS && q < 5 && Concluded(w, out)
    ensures out[1].Proven?
  {
    EntryPasses(w, out, j, q);
    assert Grounded(w, out, 1);
    TakesNoAddress(w, j, q, 1);
    EntryIsStraight(w, j, q);
    ChainSolves(w, 1);
    OnlyCaller(w, j, q, 0, 2);
    if out[1].Open? {
      var g: nat, i: nat :| IsCaller(w, 1, g, i) && out[g].Open?;
      OnlyCaller(w, j, q, g, i);
      assert false;
    }
    if SomeFails(w, out, 1) {
      var g: nat, i: nat :| Fails(w, out, 1, g, i);
      OnlyCaller(w, j, q, g, i);
      assert false;
    }
  }

  /** Loaded back to one of R6-R9, the context's place is that register, not the slot. */
  lemma {:induction false} RegisterIsNamed(w: Flow, a: Known, i: nat, j: nat, r: Reg)
    requires Shaped(a) && j < SLOTS && 6 <= r <= 9 && i + 1 < |w.p| && a.regs[1].TheCtx? && forall q | 6 <= q < r :: !a.regs[q].TheCtx?
    requires w.p[i].op == Store(8) && w.p[i].dst == FP && w.p[i].src == 1 && w.p[i].off == SlotOff(j)
    requires w.p[i + 1].op == Load(8, false) && w.p[i + 1].dst == r && w.p[i + 1].src == FP && w.p[i + 1].off == SlotOff(j)
    ensures Claims(After(w, After(w, a, i), i + 1), Register(r))
  {
    SaveAndLoad(w, a, i, j, r);
  }

  /** There is such a program for every slot and argument register. */
  lemma {:induction false} SampleExists(j: nat, q: nat) returns (w: Flow)
    requires j < SLOTS && q < 5
    ensures Sample(w, j, q)
  {
    var p := [ Insn(Store(8), FP, 1, SlotOff(j), 0, "", "main", GlobalFunc),
               Insn(Load(8, false), 1 + q, FP, SlotOff(j), 0, "", "", NotAFunction),
               Insn(CallFunc, 0, 1, 0, -1, "g", "", NotAFunction),
               Insn(Exit, 0, 0, 0, 0, "", "", NotAFunction),
               Insn(Exit, 0, 0, 0, 0, "", "g", StaticFunc) ];
    w := Flow(p, [Fn(0, 4, true, 0), Fn(4, 5, false, q)]);
    assert p[4].sym == "g" && forall i | 0 <= i < 4 :: p[i].sym != "g" by {
      assert |"main"| == 4 && |"g"| == 1;
    }
  }
}
