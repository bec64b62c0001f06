/** What the context tracker's kinds mean of concrete values and stack bytes, and why each transfer keeps them
    true. */
module CtxMeaning {
  import opened Machine
  import opened CtxDomain

  const CTX: Value := Ptr(Context, 0)

  ghost predicate PointsInto(v: Value, e: nat) {
    v.Ptr? && v.region == Frame(e)
  }

  /** Stack pointers: what the verifier lets a program store only in its own frame, whole and aligned. */
  ghost predicate Tracked(v: Value) {
    v.Ptr? && v.region.Frame?
  }

  /** The meaning of a kind in frame `e`.  Whether a value may be a function pointer is what the tracker means to
      know too, but a function called with one calls it plain data, so that half is not part of the meaning. */
  ghost predicate Means(k: Kind, v: Value, e: nat) {
    match k
    case TheCtx => v == CTX
    case Other => !PointsInto(v, e)
    case MaybeFunc => !PointsInto(v, e)
    case InFrame(at) => v == Ptr(Frame(e), at)
    case Any => true
  }

  /** The meaning of a kind for the eight bytes of a slot. */
  ghost predicate SlotHolds(k: Kind, bytes: seq<Frag>, e: nat)
    requires |bytes| == 8
  {
    (k.TheCtx? || k.InFrame? ==> Whole(bytes)) && (Whole(bytes) ==> Means(k, bytes[0].v, e))
  }

  function SlotBytes(m: Memory, e: nat, i: nat): (s: seq<Frag>)
    ensures |s| == 8
  {
    Bytes(m, Frame(e), SlotOff(i), 8)
  }

  ghost predicate RegsHold(a: Known, regs: seq<Value>, e: nat)
    requires Shaped(a)
  {
    |regs| == 11 && regs[FP] == FramePtr(e) && forall r | 0 <= r < REGS :: Means(a.regs[r], regs[r], e)
  }

  ghost predicate SlotsHold(a: Known, m: Memory, e: nat)
    requires Shaped(a)
  {
    forall i | 0 <= i < SLOTS :: SlotHolds(a.slots[i], SlotBytes(m, e, i), e)
  }

  /** Pointers lie in the frame whole and aligned. */
  ghost predicate Aligned(m: Memory, e: nat) {
    forall o: int :: Tracked(m(Frame(e), o).v) ==> (o - m(Frame(e), o).k) % 8 == 0
  }

  lemma {:induction false} HoldsUp(k: Kind, l: Kind, v: Value, e: nat)
    requires Below(k, l) && Means(k, v, e)
    ensures Means(l, v, e)
  {
  }

  lemma {:induction false} SlotHoldsUp(k: Kind, l: Kind, bytes: seq<Frag>, e: nat)
    requires |bytes| == 8 && Below(k, l) && SlotHolds(k, bytes, e)
    ensures SlotHolds(l, bytes, e)
  {
  }

  /** A larger state describes whatever a smaller one does. */
  lemma {:induction false} DescribesUp(a: Known, b: Known, regs: seq<Value>, m: Memory, e: nat)
    requires Shaped(a) && Shaped(b) && Covers(b, a)
    ensures RegsHold(a, regs, e) ==> RegsHold(b, regs, e)
    ensures SlotsHold(a, m, e) ==> SlotsHold(b, m, e)
  {
    if RegsHold(a, regs, e) {
      forall r | 0 <= r < REGS
        ensures Means(b.regs[r], regs[r], e)
      {
        HoldsUp(a.regs[r], b.regs[r], regs[r], e);
      }
    }
    if SlotsHold(a, m, e) {
      forall i | 0 <= i < SLOTS
        ensures SlotHolds(b.slots[i], SlotBytes(m, e, i), e)
      {
        SlotHoldsUp(a.slots[i], b.slots[i], SlotBytes(m, e, i), e);
      }
    }
  }

  // ---------------------------------------------------------------- registers

  lemma {:induction false} RegHolds(a: Known, regs: seq<Value>, e: nat, r: Reg)
    requires Shaped(a) && RegsHold(a, regs, e)
    ensures Means(RegKind(a, r), regs[r], e)
  {
  }

  lemma {:induction false} SetHolds(a: Known, regs: seq<Value>, e: nat, r: Reg, k: Kind, v: Value)
    requires Shaped(a) && RegsHold(a, regs, e) && r != FP && KindOk(k) && Means(k, v, e)
    ensures RegsHold(SetKind(a, r, k), regs[r := v], e)
  {
  }

  lemma {:induction false} AluHolds(env: Env, a: Known, regs: seq<Value>, e: nat, ins: Insn)
    requires Shaped(a) && RegsHold(a, regs, e) && ins.op.Alu?
    ensures Means(AluKind(a, ins), AluValue(env, ins.op, ins.off, regs[ins.dst], Operand(ins, ins.op.fromReg, regs)), e)
  {
    RegHolds(a, regs, e, ins.dst);
    RegHolds(a, regs, e, ins.src);
  }

  // ---------------------------------------------------------------- loads

  lemma {:induction false} FirstByte(m: Memory, r: Region, at: int, size: nat)
    requires Whole(Bytes(m, r, at, size))
    ensures Bytes(m, r, at, size)[0] == m(r, at) && m(r, at).k == 0
  {
    assert Bytes(m, r, at, size)[0] == m(r, at + 0);
  }

  /** What a load from the function's own frame yields. */
  lemma {:induction false} OwnLoadHolds(env: Env, a: Known, m: Memory, e: nat, at: int, size: nat, signed: bool)
    requires Shaped(a) && SlotsHold(a, m, e) && Aligned(m, e)
    requires DEEPEST <= at && at + size <= 0 && (signed ==> size < 8)
    ensures var k := if IsSlot(at) && !signed && size == 8 then a.slots[SlotAt(at)] else Other;
      Means(k, LoadBytes(env, m, Frame(e), at, size, signed), e)
  {
    var s := Bytes(m, Frame(e), at, size);
    if IsSlot(at) && size == 8 {
      var i := SlotAt(at);
      assert s == SlotBytes(m, e, i);
      assert SlotHolds(a.slots[i], SlotBytes(m, e, i), e);
    } else if Whole(s) {
      FirstByte(m, Frame(e), at, size);
      assert at % 8 != 0;
      assert !Tracked(m(Frame(e), at).v);
    }
  }

  // ---------------------------------------------------------------- stores

  /** Bytes of frame `e` change only at or above `low`, and only to data. */
  ghost predicate AliasOnly(m: Memory, m': Memory, e: nat, low: int) {
    forall o: int :: m'(Frame(e), o) == m(Frame(e), o) || (o >= low && !Tracked(m'(Frame(e), o).v))
  }

  lemma {:induction false} SlotUnchanged(m: Memory, m': Memory, e: nat, i: nat)
    requires forall o: int | SlotOff(i) <= o < SlotOff(i) + 8 :: m'(Frame(e), o) == m(Frame(e), o)
    ensures SlotBytes(m', e, i) == SlotBytes(m, e, i)
  {
  }

  /** A slot some byte of which was overwritten with data. */
  lemma {:induction false} SlotTouched(m: Memory, e: nat, i: nat, o: int)
    requires SlotOff(i) <= o < SlotOff(i) + 8 && !Tracked(m(Frame(e), o).v)
    ensures SlotHolds(Other, SlotBytes(m, e, i), e)
  {
    var b := SlotBytes(m, e, i);
    assert b[o - SlotOff(i)] == m(Frame(e), SlotOff(i) + (o - SlotOff(i)));
  }

  /** Slots that writes through a kept alias may reach are never claimed to hold one exact value. */
  ghost predicate Weak(a: Known)
    requires Shaped(a)
  {
    forall i | 0 <= i < SLOTS && Overlaps(i, a.floor, 0) :: !a.slots[i].TheCtx? && !a.slots[i].InFrame?
  }

  lemma {:induction false} WeakSurvives(a: Known, m: Memory, m': Memory, e: nat, low: int)
    requires Shaped(a) && SlotsHold(a, m, e) && AliasOnly(m, m', e, low) && a.floor <= low && Weak(a)
    ensures SlotsHold(a, m', e)
  {
    forall i | 0 <= i < SLOTS
      ensures SlotHolds(a.slots[i], SlotBytes(m', e, i), e)
    {
      var at := SlotOff(i);
      assert SlotHolds(a.slots[i], SlotBytes(m, e, i), e);
      if o: int :| at <= o < at + 8 && m'(Frame(e), o) != m(Frame(e), o) {
        assert Overlaps(i, a.floor, 0);
        SlotTouched(m', e, i, o);
        SlotHoldsUp(Other, Join(a.slots[i], Other), SlotBytes(m', e, i), e);
        assert Join(a.slots[i], Other) == a.slots[i];
      } else {
        SlotUnchanged(m, m', e, i);
      }
    }
  }

  lemma {:induction false} ClobberWeakens(a: Known, m: Memory, e: nat)
    requires Shaped(a) && SlotsHold(a, m, e)
    ensures SlotsHold(Clobber(a, a.floor), m, e) && Weak(Clobber(a, a.floor))
  {
    var t := Clobber(a, a.floor);
    forall i | 0 <= i < SLOTS
      ensures SlotHolds(t.slots[i], SlotBytes(m, e, i), e)
    {
      assert SlotHolds(a.slots[i], SlotBytes(m, e, i), e);
      SlotHoldsUp(a.slots[i], Join(a.slots[i], Other), SlotBytes(m, e, i), e);
    }
  }

  /** No slot is said to hold one exact value. */
  predicate NoClaims(a: Known) {
    forall i | 0 <= i < |a.slots| :: !a.slots[i].TheCtx? && !a.slots[i].InFrame?
  }

  /** Bytes of frame `e` change only to data. */
  ghost predicate DataOnly(m: Memory, m': Memory, e: nat) {
    forall o: int :: m'(Frame(e), o) == m(Frame(e), o) || !Tracked(m'(Frame(e), o).v)
  }

  /** Where nothing exact is claimed, data may be written anywhere. */
  lemma {:induction false} ClaimlessSurvives(a: Known, m: Memory, m': Memory, e: nat)
    requires Shaped(a) && SlotsHold(a, m, e) && DataOnly(m, m', e) && NoClaims(a)
    ensures SlotsHold(a, m', e)
  {
    forall i | 0 <= i < SLOTS
      ensures SlotHolds(a.slots[i], SlotBytes(m', e, i), e)
    {
      var at := SlotOff(i);
      assert SlotHolds(a.slots[i], SlotBytes(m, e, i), e);
      if o: int :| at <= o < at + 8 && m'(Frame(e), o) != m(Frame(e), o) {
        SlotTouched(m', e, i, o);
      } else {
        SlotUnchanged(m, m', e, i);
      }
    }
  }

  ghost predicate AllAny(a: Known) {
    forall i | 0 <= i < |a.slots| :: a.slots[i].Any?
  }

  lemma {:induction false} FilledIsAny(a: Known, m: Memory, e: nat)
    requires Shaped(a)
    ensures var t := Fill(a, DEEPEST, 0, Any); AllAny(t) && SlotsHold(t, m, e) && Weak(t)
  {
  }

  /** A store the verifier allows into the function's own frame. */
  ghost predicate OwnStoreOk(at: int, size: nat, v: Value) {
    1 <= size <= 8 && DEEPEST <= at && at + size <= 0 && (Tracked(v) ==> size == 8 && at % 8 == 0)
  }

  lemma {:induction false} FullStoreHolds(a: Known, m: Memory, e: nat, at: int, k: Kind, v: Value)
    requires Shaped(a) && SlotsHold(a, m, e) && IsSlot(at) && KindOk(k) && Means(k, v, e)
    ensures SlotsHold(a.(slots := a.slots[SlotAt(at) := k]), StoreBytes(m, Frame(e), at, 8, v), e)
  {
    var m' := StoreBytes(m, Frame(e), at, 8, v);
    forall i | 0 <= i < SLOTS
      ensures SlotHolds(a.slots[SlotAt(at) := k][i], SlotBytes(m', e, i), e)
    {
      assert SlotHolds(a.slots[i], SlotBytes(m, e, i), e);
      if i == SlotAt(at) {
        assert forall n | 0 <= n < 8 :: SlotBytes(m', e, i)[n] == Frag(v, n);
      } else {
        SlotUnchanged(m, m', e, i);
      }
    }
  }

  /** A narrow or misaligned store leaves data, or, through an atomic, anything. */
  lemma {:induction false} PartStoreHolds(a: Known, m: Memory, e: nat, at: int, size: nat, k: Kind, v: Value)
    requires Shaped(a) && SlotsHold(a, m, e) && OwnStoreOk(at, size, v)
    requires k.Any? || (k.Other? && !Tracked(v))
    ensures SlotsHold(Fill(a, at, at + size, k), StoreBytes(m, Frame(e), at, size, v), e)
  {
    var m', t := StoreBytes(m, Frame(e), at, size, v), Fill(a, at, at + size, k);
    forall i | 0 <= i < SLOTS
      ensures SlotHolds(t.slots[i], SlotBytes(m', e, i), e)
    {
      assert SlotHolds(a.slots[i], SlotBytes(m, e, i), e);
      if !Overlaps(i, at, at + size) {
        SlotUnchanged(m, m', e, i);
      } else if k.Other? {
        SlotTouched(m', e, i, if at < SlotOff(i) then SlotOff(i) else at);
      }
    }
  }

  lemma {:induction false} FrameStoreHolds(a: Known, m: Memory, e: nat, at: int, size: nat, k: Kind, v: Value)
    requires Shaped(a) && SlotsHold(a, m, e) && KindOk(k) && (k.Any? || Means(k, v, e)) && OwnStoreOk(at, size, v)
    ensures SlotsHold(StoreKind(a, InFrame(at), 0, size, k), StoreBytes(m, Frame(e), at, size, v), e)
  {
    if IsSlot(at) && size == 8 {
      FullStoreHolds(a, m, e, at, k, v);
    } else {
      PartStoreHolds(a, m, e, at, size, if k.Any? then Any else Other, v);
    }
  }

  lemma {:induction false} OtherStoreHolds(a: Known, m: Memory, m': Memory, e: nat, low: int)
    requires Shaped(a) && SlotsHold(a, m, e) && a.floor <= low && AliasOnly(m, m', e, low)
    ensures SlotsHold(Clobber(a, a.floor), m', e)
  {
    ClobberWeakens(a, m, e);
    WeakSurvives(Clobber(a, a.floor), m, m', e, low);
  }

  lemma {:induction false} StoreByBase(a: Known, base: Kind, off: int, size: nat, k: Kind)
    requires Shaped(a) && KindOk(k)
    ensures StoreKind(a, base, off, size, k) ==
      match base
      case InFrame(o) => StoreKind(a, InFrame(o + off), 0, size, k)
      case Any => Fill(a, DEEPEST, 0, Any)
      case _ => Clobber(a, a.floor)
  {
  }

  /** A store through a pointer of kind `base`, with whatever aliases of the frame it may write through. */
  lemma {:induction false} StoreHolds(a: Known, m: Memory, m': Memory, e: nat, low: int, base: Kind, p: Value, off: int, size: nat, k: Kind, v: Value)
    requires Shaped(a) && SlotsHold(a, m, e) && a.floor <= low && p.Ptr? && Means(base, p, e) && KindOk(k)
    requires k.Any? || Means(k, v, e)
    requires if PointsInto(p, e) then OwnStoreOk(p.off + off, size, v) && m' == StoreBytes(m, Frame(e), p.off + off, size, v)
             else AliasOnly(m, m', e, low)
    ensures SlotsHold(StoreKind(a, base, off, size, k), m', e)
  {
    StoreByBase(a, base, off, size, k);
    if base.InFrame? {
      FrameStoreHolds(a, m, e, p.off + off, size, k, v);
    } else if base.Any? {
      FilledIsAny(a, m', e);
    } else {
      OtherStoreHolds(a, m, m', e, low);
    }
  }
}
