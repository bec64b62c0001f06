/** Functions without jumps: their least solution is the transfer of one instruction after the other. */
module CtxStraight {
  import opened Machine
  import opened CtxDomain
  import opened CtxAnalyze
  import opened CtxWorklist
  import opened CtxProve

  ghost predicate IsStraight(w: Flow, f: nat) {
    f < |w.fns| && 0 <= w.fns[f].param < 5 && w.fns[f].lo < w.fns[f].hi <= |w.p| &&
    forall i | w.fns[f].lo <= i < w.fns[f].hi :: StraightAt(w, f, i)
  }

  ghost predicate StraightAt(w: Flow, f: nat, i: nat)
    requires f < |w.fns| && i < |w.p|
  {
    Successors(w, f, i) == Ok(if i + 1 < w.fns[f].hi then [i + 1] else [])
  }

  /** What the proof pass guarantees of its outcome. */
  ghost predicate Concluded(w: Flow, out: seq<Verdict>) {
    AllGrounded(w, out) && forall f | 0 <= f < |out| :: out[f].Open? ==> Stalled(w, out, f)
  }

  /** The states of the function, one after the other. */
  ghost function Chain(w: Flow, f: nat, i: nat): (a: Known)
    requires IsStraight(w, f) && w.fns[f].lo <= i < w.fns[f].hi
    ensures Shaped(a)
    decreases i
  {
    if i == w.fns[f].lo then Initial(w.fns[f].param) else After(w, Chain(w, f, i - 1), i - 1)
  }

  ghost function ChainMap(w: Flow, f: nat): States
    requires IsStraight(w, f)
  {
    map i: nat | w.fns[f].lo <= i < w.fns[f].hi :: Chain(w, f, i)
  }

  lemma {:induction false} ChainSolves(w: Flow, f: nat)
    requires IsStraight(w, f)
    ensures Solved(w, f, ChainMap(w, f))
  {
    var x := ChainMap(w, f);
    CoversItself(Initial(w.fns[f].param));
    forall i | i in x
      ensures Closed(w, f, x, i)
    {
      ChainCloses(w, f, i);
    }
  }

  lemma {:induction false} ChainCloses(w: Flow, f: nat, i: nat)
    requires IsStraight(w, f) && w.fns[f].lo <= i < w.fns[f].hi
    ensures Closed(w, f, ChainMap(w, f), i)
  {
    assert StraightAt(w, f, i);
    if i + 1 < w.fns[f].hi {
      ChainReaches(w, f, i);
    }
  }

  lemma {:induction false} ChainReaches(w: Flow, f: nat, i: nat)
    requires IsStraight(w, f) && w.fns[f].lo <= i && i + 1 < w.fns[f].hi
    ensures Reached(ChainMap(w, f), i + 1, After(w, Chain(w, f, i), i))
  {
    CoversItself(After(w, Chain(w, f, i), i));
  }

  lemma {:induction false} JustifiedOn(w: Flow, f: nat, i: nat, a: Known)
    requires f < |w.fns| && i < |w.p| && StraightAt(w, f, i) && i + 1 < w.fns[f].hi && Shaped(a) && Justified(w, f, i, a)
    ensures Justified(w, f, i + 1, After(w, a, i))
  {
    JustifiedStep(w, f, i, a, 0);
  }

  /** Every solution is at least the chain. */
  lemma {:induction false} ChainJustified(w: Flow, f: nat, i: nat)
    requires IsStraight(w, f) && w.fns[f].lo <= i < w.fns[f].hi
    ensures Justified(w, f, i, Chain(w, f, i))
    decreases i
  {
    if i > w.fns[f].lo {
      ChainJustified(w, f, i - 1);
      JustifiedOn(w, f, i - 1, Chain(w, f, i - 1));
    }
  }

  /** So the least solution is the chain. */
  lemma {:induction false} LeastIsChain(w: Flow, f: nat, states: States, i: nat)
    requires IsStraight(w, f) && Solved(w, f, states) && Least(w, f, states) && w.fns[f].lo <= i < w.fns[f].hi
    ensures i in states && states[i] == Chain(w, f, i)
  {
    ChainJustified(w, f, i);
    assert Reached(states, i, Chain(w, f, i));
    ChainSolves(w, f);
    assert Justified(w, f, i, states[i]);
    assert Reached(ChainMap(w, f), i, states[i]);
    OrderIsAntisymmetric(states[i], Chain(w, f, i));
  }

  lemma {:induction false} OrderIsAntisymmetric(a: Known, b: Known)
    requires Covers(a, b) && Covers(b, a)
    ensures a == b
  {
    forall i | 0 <= i < |a.regs|
      ensures a.regs[i] == b.regs[i]
    {
      assert Below(a.regs[i], b.regs[i]) && Below(b.regs[i], a.regs[i]);
    }
    forall i | 0 <= i < |a.slots|
      ensures a.slots[i] == b.slots[i]
    {
      assert Below(a.slots[i], b.slots[i]) && Below(b.slots[i], a.slots[i]);
    }
    assert a.regs == b.regs && a.slots == b.slots;
  }
}
