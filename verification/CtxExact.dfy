/** When the tracker's state after a helper call survives a callback that writes the frame it was given: exactly
    when nothing exact is claimed of the frame any more. */
module CtxExact {
  import opened Machine
  import opened CtxDomain
  import opened CtxAnalyze
  import opened CtxMeaning
  import opened CtxKernel
  import opened CtxCalls

  /** A frame whose slots hold exactly what `a` says. */
  ghost function Witness(a: Known, d: nat): Memory
    requires Shaped(a)
  {
    (r, o) => if r == Frame(d) && DEEPEST <= o < 0 then Frag(Example(a.slots[SlotAt(o - o % 8)], d), o % 8) else Frag(Num(0), 0)
  }

  function Example(k: Kind, d: nat): Value {
    match k
    case TheCtx => CTX
    case InFrame(at) => Ptr(Frame(d), at)
    case _ => Num(0)
  }

  lemma {:induction false} WitnessHolds(a: Known, d: nat)
    requires Shaped(a)
    ensures SlotsHold(a, Witness(a, d), d)
  {
    forall i | 0 <= i < SLOTS
      ensures SlotHolds(a.slots[i], SlotBytes(Witness(a, d), d, i), d)
    {
      var b := SlotBytes(Witness(a, d), d, i);
      forall n | 0 <= n < 8
        ensures b[n] == Frag(Example(a.slots[i], d), n)
      {
        var o := SlotOff(i) + n;
        assert o % 8 == n && o - o % 8 == SlotOff(i);
        assert SlotAt(SlotOff(i)) == i;
      }
    }
  }

  /** The state after a call to a helper that was given a pointer into the frame is right for every callback the
      helper may run, whatever data it writes into the frame, exactly when it claims no exact slot. */
  lemma {:induction false} CallbackExact(w: Flow, a: Known, i: nat, d: nat)
    requires Shaped(a) && i < |w.p| && IsExternal(w.p[i])
    ensures (forall m: Memory, m': Memory | SlotsHold(a, m, d) && DataOnly(m, m', d) :: SlotsHold(After(w, a, i), m', d))
      <==> NoClaims(After(w, a, i))
  {
    var t := After(w, a, i);
    if NoClaims(t) {
      forall m: Memory, m': Memory | SlotsHold(a, m, d) && DataOnly(m, m', d)
        ensures SlotsHold(t, m', d)
      {
        CallSlots(w, a, i, m, m, d, FloorOver(a, 5));
        ClaimlessSurvives(t, m, m', d);
      }
    } else {
      var j :| 0 <= j < SLOTS && (t.slots[j].TheCtx? || t.slots[j].InFrame?);
      BrokenClaim(w, a, i, d, j);
    }
  }

  lemma {:induction false} BrokenClaim(w: Flow, a: Known, i: nat, d: nat, j: nat)
    requires Shaped(a) && i < |w.p| && IsExternal(w.p[i]) && j < SLOTS
    requires After(w, a, i).slots[j].TheCtx? || After(w, a, i).slots[j].InFrame?
    ensures exists m: Memory, m': Memory :: SlotsHold(a, m, d) && DataOnly(m, m', d) && !SlotsHold(After(w, a, i), m', d)
  {
    var m := Witness(a, d);
    WitnessHolds(a, d);
    var m' := StoreBytes(m, Frame(d), SlotOff(j), 8, Num(0));
    var b := SlotBytes(m', d, j);
    assert forall n | 0 <= n < 8 :: b[n] == Frag(Num(0), n);
    assert !SlotHolds(After(w, a, i).slots[j], b, d);
    assert DataOnly(m, m', d);
  }

  /** That is so when the tracker saw a function pointer among the arguments; otherwise when every exact slot lies
      above the lowest offset the helper was given. */
  lemma {:induction false} WhenNothingIsClaimed(w: Flow, a: Known, i: nat)
    requires Shaped(a) && i < |w.p| && IsExternal(w.p[i]) && Exposed(a)
    ensures NoClaims(After(w, a, i)) <==>
      PassesFunc(a) || forall j | 0 <= j < SLOTS && (a.slots[j].TheCtx? || a.slots[j].InFrame?) :: FloorOver(a, 5) < SlotOff(j) + 8
  {
    var lo, t := FloorOver(a, 5), After(w, a, i);
    if PassesFunc(a) {
      assert forall j | 0 <= j < SLOTS :: t.slots[j].Any?;
    } else {
      assert t.slots == Clobber(a.(floor := lo), lo).slots;
      forall j | 0 <= j < SLOTS
        ensures t.slots[j].TheCtx? || t.slots[j].InFrame? <==> (a.slots[j].TheCtx? || a.slots[j].InFrame?) && lo >= SlotOff(j) + 8
      {
      }
    }
  }
}
