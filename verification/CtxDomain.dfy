/** What the context tracker knows of each register and stack slot, and how one instruction changes it. */
module CtxDomain {
  import opened Machine

  /** What a register or 8-byte stack slot may hold: nothing of interest (neither a pointer into this frame nor a
      function pointer), the program context, possibly a function pointer, a pointer into this frame at a known
      offset, or anything. */
  datatype Kind = Other | TheCtx | MaybeFunc | InFrame(at: int) | Any

  const REGS := 10
  const SLOTS := 64
  const DEEPEST := -512

  /** `floor` is the lowest offset of this frame given to a helper, which may keep an alias of it. */
  datatype Known = Known(regs: seq<Kind>, slots: seq<Kind>, floor: int)

  predicate KindOk(k: Kind) {
    k.InFrame? ==> DEEPEST <= k.at <= 0
  }

  predicate KindsOk(ks: seq<Kind>) {
    forall i | 0 <= i < |ks| :: KindOk(ks[i])
  }

  predicate Shaped(s: Known) {
    |s.regs| == REGS && |s.slots| == SLOTS && KindsOk(s.regs) && KindsOk(s.slots) && DEEPEST <= s.floor <= 0
  }

  // ---------------------------------------------------------------- the order

  predicate Below(a: Kind, b: Kind) {
    a == b || b.Any? || (a.TheCtx? && (b.Other? || b.MaybeFunc?)) || (a.Other? && b.MaybeFunc?)
  }

  predicate IsValue(k: Kind) {
    k.Other? || k.TheCtx?
  }

  function Join(a: Kind, b: Kind): Kind {
    if a == b then a
    else if IsValue(a) && IsValue(b) then Other
    else if (IsValue(a) || a.MaybeFunc?) && (IsValue(b) || b.MaybeFunc?) then MaybeFunc
    else Any
  }

  predicate AllBelow(a: seq<Kind>, b: seq<Kind>) {
    |a| == |b| && forall i | 0 <= i < |a| :: Below(a[i], b[i])
  }

  function JoinAll(a: seq<Kind>, b: seq<Kind>): (r: seq<Kind>)
    requires |a| == |b|
    ensures |r| == |a|
  {
    seq(|a|, i requires 0 <= i < |a| => Join(a[i], b[i]))
  }

  function Min(a: int, b: int): int {
    if a < b then a else b
  }

  predicate Covers(b: Known, a: Known) {
    AllBelow(a.regs, b.regs) && AllBelow(a.slots, b.slots) && b.floor <= a.floor
  }

  function JoinState(a: Known, b: Known): Known
    requires Shaped(a) && Shaped(b)
  {
    Known(JoinAll(a.regs, b.regs), JoinAll(a.slots, b.slots), Min(a.floor, b.floor))
  }

  /** The join is the least upper bound. */
  lemma {:induction false} JoinIsLeast(a: Known, b: Known)
    requires Shaped(a) && Shaped(b)
    ensures var j := JoinState(a, b);
      Shaped(j) && Covers(j, a) && Covers(j, b) && forall c: Known | Covers(c, a) && Covers(c, b) :: Covers(c, j)
  {
    var j := JoinState(a, b);
    forall c: Known | Covers(c, a) && Covers(c, b)
      ensures Covers(c, j)
    {
      forall i | 0 <= i < REGS
        ensures Below(j.regs[i], c.regs[i])
      {
        assert Below(a.regs[i], c.regs[i]) && Below(b.regs[i], c.regs[i]);
      }
      forall i | 0 <= i < SLOTS
        ensures Below(j.slots[i], c.slots[i])
      {
        assert Below(a.slots[i], c.slots[i]) && Below(b.slots[i], c.slots[i]);
      }
    }
  }

  lemma {:induction false} CoversTransitive(a: Known, b: Known, c: Known)
    requires Covers(b, a) && Covers(c, b)
    ensures Covers(c, a)
  {
    forall i | 0 <= i < |a.regs|
      ensures Below(a.regs[i], c.regs[i])
    {
      assert Below(a.regs[i], b.regs[i]) && Below(b.regs[i], c.regs[i]);
    }
    forall i | 0 <= i < |a.slots|
      ensures Below(a.slots[i], c.slots[i])
    {
      assert Below(a.slots[i], b.slots[i]) && Below(b.slots[i], c.slots[i]);
    }
  }

  lemma {:induction false} CoversItself(a: Known)
    ensures Covers(a, a)
  {
  }

  // ---------------------------------------------------------------- finite height

  function KindHeight(k: Kind): nat {
    match k
    case TheCtx => 3
    case Other => 2
    case MaybeFunc => 1
    case InFrame(_) => 1
    case Any => 0
  }

  function Heights(ks: seq<Kind>): (h: nat)
    ensures h <= 3 * |ks|
  {
    if ks == [] then 0 else KindHeight(ks[|ks| - 1]) + Heights(ks[..|ks| - 1])
  }

  lemma {:induction false} HeightsFall(a: seq<Kind>, b: seq<Kind>)
    requires AllBelow(a, b)
    ensures Heights(b) <= Heights(a) && (a != b ==> Heights(b) < Heights(a))
    decreases |a|
  {
    var n := |a| - 1;
    if n >= 0 {
      HeightsFall(a[..n], b[..n]);
      assert a == a[..n] + [a[n]] && b == b[..n] + [b[n]];
      assert Below(a[n], b[n]);
    }
  }

  const MAX_HEIGHT := 3 * (REGS + SLOTS) - DEEPEST

  function Height(s: Known): (h: nat)
    requires Shaped(s)
    ensures h <= MAX_HEIGHT
  {
    Heights(s.regs) + Heights(s.slots) + (s.floor - DEEPEST)
  }

  lemma {:induction false} HeightFalls(a: Known, b: Known)
    requires Shaped(a) && Shaped(b) && Covers(b, a) && a != b
    ensures Height(b) < Height(a)
  {
    HeightsFall(a.regs, b.regs);
    HeightsFall(a.slots, b.slots);
  }

  // ---------------------------------------------------------------- registers and slots

  function RegKind(s: Known, r: Reg): (k: Kind)
    requires Shaped(s)
    ensures KindOk(k)
  {
    if r == FP then InFrame(0) else s.regs[r]
  }

  function SetKind(s: Known, r: Reg, k: Kind): (t: Known)
    requires Shaped(s) && KindOk(k)
    ensures Shaped(t)
  {
    if r == FP then s else s.(regs := s.regs[r := k])
  }

  /** The frame offset of a slot. */
  function SlotOff(i: int): int {
    -8 * (i + 1)
  }

  predicate IsSlot(off: int) {
    DEEPEST <= off <= -8 && off % 8 == 0
  }

  function SlotAt(off: int): (i: nat)
    requires IsSlot(off)
    ensures i < SLOTS && SlotOff(i) == off
  {
    -off / 8 - 1
  }

  /** Whether slot `i` overlaps frame bytes lo..hi. */
  predicate Overlaps(i: int, lo: int, hi: int) {
    SlotOff(i) < hi && lo < SlotOff(i) + 8
  }

  /** Every slot overlapping lo..hi becomes `k`. */
  function Fill(s: Known, lo: int, hi: int, k: Kind): (t: Known)
    requires Shaped(s) && KindOk(k)
    ensures Shaped(t)
  {
    s.(slots := seq(SLOTS, i requires 0 <= i < SLOTS => if Overlaps(i, lo, hi) then k else s.slots[i]))
  }

  /** Every slot reaching above `lo` may have been overwritten with data, or not. */
  function Clobber(s: Known, lo: int): (t: Known)
    requires Shaped(s)
    ensures Shaped(t)
  {
    s.(slots := seq(SLOTS, i requires 0 <= i < SLOTS => if Overlaps(i, lo, 0) then Join(s.slots[i], Other) else s.slots[i]))
  }

  // ---------------------------------------------------------------- transfer

  function StoreKind(s: Known, base: Kind, off: int, size: nat, k: Kind): (t: Known)
    requires Shaped(s) && KindOk(k)
    ensures Shaped(t)
  {
    match base
    case InFrame(o) =>
      if IsSlot(o + off) && size == 8 then s.(slots := s.slots[SlotAt(o + off) := k])
      else Fill(s, o + off, o + off + size, if k.Any? then Any else Other)
    case Any => Fill(s, DEEPEST, 0, Any)
    case _ => Clobber(s, s.floor)
  }

  predicate HoldsPtr(k: Kind) {
    k.InFrame? || k.Any?
  }

  /** ctxFunc and above. */
  predicate NotData(k: Kind) {
    k.MaybeFunc? || HoldsPtr(k)
  }

  function AluKind(s: Known, ins: Insn): (k: Kind)
    requires Shaped(s) && ins.op.Alu?
    ensures KindOk(k)
  {
    var op := ins.op;
    if op.wide && op.alu.Mov? && ins.off == 0 then (if op.fromReg then RegKind(s, ins.src) else Other)
    else if op.wide && (op.alu.Add? || op.alu.Sub?) then
      var d := RegKind(s, ins.dst);
      if !op.fromReg && d.InFrame? then
        var at := if op.alu.Add? then d.at + ins.imm else d.at - ins.imm;
        if DEEPEST <= at <= 0 then InFrame(at) else Any
      else if NotData(d) || (op.fromReg && NotData(RegKind(s, ins.src))) then Any
      else Other
    else Other
  }

  function LoadKind(s: Known, base: Kind, off: int, size: nat, signed: bool): (k: Kind)
    requires Shaped(s)
    ensures KindOk(k)
  {
    if base.Any? then Any
    else if base.InFrame? && IsSlot(base.at + off) && !signed && size == 8 then s.slots[SlotAt(base.at + off)]
    else Other
  }

  function AfterAtomic(s: Known, ins: Insn): (t: Known)
    requires Shaped(s) && ins.op.Atomic?
    ensures Shaped(t)
  {
    var t := StoreKind(s, RegKind(s, ins.dst), ins.off, ins.op.size, Any);
    var loaded := if HoldsPtr(RegKind(t, ins.dst)) || HoldsPtr(RegKind(t, ins.src)) then Any else Other;
    var t0 := SetKind(t, 0, Join(RegKind(t, 0), loaded));
    var t1 := SetKind(t0, ins.src, Join(RegKind(t0, ins.src), loaded));
    SetKind(t1, ins.dst, Join(RegKind(t1, ins.dst), loaded))
  }

  function ForgetArgs(s: Known): (t: Known)
    requires Shaped(s)
    ensures Shaped(t)
  {
    s.(regs := [Other, Other, Other, Other, Other, Other] + s.regs[6..])
  }

  /** An instruction that neither jumps nor calls. */
  function AfterPlain(s: Known, ins: Insn): (t: Known)
    requires Shaped(s)
    ensures Shaped(t)
  {
    match ins.op
    case Alu(_, _, _) => SetKind(s, ins.dst, AluKind(s, ins))
    case Load(size, signed) => SetKind(s, ins.dst, LoadKind(s, RegKind(s, ins.src), ins.off, size, signed))
    case LoadImm64(_) => SetKind(s, ins.dst, Other)
    case LoadFunc => SetKind(s, ins.dst, MaybeFunc)
    case LoadLegacy => ForgetArgs(s)
    case StoreImm(size) => StoreKind(s, RegKind(s, ins.dst), ins.off, size, Other)
    case Store(size) => StoreKind(s, RegKind(s, ins.dst), ins.off, size, if size == 8 then RegKind(s, ins.src) else Other)
    case Atomic(_, _, _) => AfterAtomic(s, ins)
    case _ => s
  }

  predicate Exposed(s: Known)
    requires Shaped(s)
  {
    exists r | 1 <= r <= 5 :: HoldsPtr(s.regs[r])
  }

  predicate PassesFunc(s: Known)
    requires Shaped(s)
  {
    exists r | 1 <= r <= 5 :: s.regs[r].MaybeFunc? || s.regs[r].Any?
  }

  /** The lowest offset of this frame among R1 up to R`n`. */
  function FloorOver(s: Known, n: nat): (f: int)
    requires Shaped(s) && n <= 5
    ensures DEEPEST <= f <= s.floor
    ensures forall r | 1 <= r <= n :: (s.regs[r].InFrame? ==> f <= s.regs[r].at) && (s.regs[r].Any? ==> f == DEEPEST)
  {
    if n == 0 then s.floor
    else
      var f := FloorOver(s, n - 1);
      match s.regs[n]
      case InFrame(at) => Min(f, at)
      case Any => DEEPEST
      case _ => f
  }

  /** What a call does to the frame: a helper writes only forward of the frame pointers it ever got, a BPF
      function that is given one writes anywhere in the frame unless it is write-free, and so does a callback a
      helper runs. */
  function CallMemory(s: Known, helper: bool, writeFree: bool): (t: Known)
    requires Shaped(s)
    ensures Shaped(t) && t.regs == s.regs
  {
    var lowered := if helper then s.(floor := FloorOver(s, 5)) else s;
    var clobbered := Clobber(lowered, lowered.floor);
    if Exposed(s) && (if helper then PassesFunc(s) else !writeFree) then Fill(clobbered, DEEPEST, 0, Any) else clobbered
  }

  /** What a call returns: a BPF function may return a function pointer or an alias of the caller's frame. */
  function CallResult(s: Known, helper: bool, funcElsewhere: bool): (k: Kind)
    requires Shaped(s)
    ensures KindOk(k)
  {
    if helper then Other else if Exposed(s) then Any else if PassesFunc(s) || funcElsewhere then MaybeFunc else Other
  }

  function AfterCall(s: Known, helper: bool, writeFree: bool, funcElsewhere: bool): (t: Known)
    requires Shaped(s)
    ensures Shaped(t)
  {
    SetKind(ForgetArgs(CallMemory(s, helper, writeFree)), 0, CallResult(s, helper, funcElsewhere))
  }
}
