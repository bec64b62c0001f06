/** Where the frame pass can follow an alias of R10 through an instruction and what it knows afterwards, exactly, and why
    it could not know more: each alias it keeps is the value the register always has. */
module FrameExact {
  import opened Machine
  import opened FrameDepth
  import FrameSound

  predicate InFrame(off: int) {
    -512 <= off <= 0
  }

  predicate OnFrame(a: Alias, shift: int) {
    a.Stack? ==> InFrame(a.off + shift)
  }

  predicate NoneBut10(ins: Insn, a: Aliases) {
    (forall r | 0 <= r <= 9 :: a[r] == NotStack) && ins.src != 10 && ins.dst != 10
  }

  /** How an ALU instruction moves an alias: a whole copy, a shift by a constant, or not at all. */
  predicate WholeCopy(ins: Insn) {
    ins.op.Alu? && ins.op.wide && ins.op.alu == Mov && ins.op.fromReg && ins.off == 0
  }

  predicate ConstantShift(ins: Insn) {
    ins.op.Alu? && ins.op.wide && (ins.op.alu == Add || ins.op.alu == Sub) && !ins.op.fromReg
  }

  function ShiftOf(ins: Insn): int {
    if ins.op.Alu? && ins.op.alu == Add then ins.imm else -ins.imm
  }

  /** Whether the pass stays precise. */
  predicate Followed(ins: Insn, a: Aliases) {
    match ins.op
    case Alu(_, alu, fromReg) =>
      if WholeCopy(ins) then true
      else if ConstantShift(ins) then OnFrame(a[ins.dst], ShiftOf(ins))
      else (alu == Mov && !fromReg) || (a[ins.dst] == NotStack && (fromReg ==> a[ins.src] == NotStack))
    case Load(_, signed) => if signed then NoneBut10(ins, a) else OnFrame(a[ins.src], ins.off)
    case StoreImm(_) => OnFrame(a[ins.dst], ins.off)
    case Store(_) => OnFrame(a[ins.dst], ins.off) && a[ins.src] == NotStack
    case CallHelper => forall r | 1 <= r <= 5 :: OnFrame(a[r], 0) && (a[r] == NotStack || FrameSound.AccessesForward(ins.imm, r))
    case CallKfunc => forall r | 1 <= r <= 5 :: a[r] == NotStack
    case CallFunc => forall r | 1 <= r <= 5 :: a[r] == NotStack
    case Exit => a[0] == NotStack
    case LoadLegacy => NoneBut10(ins, a)
    case Atomic(_, _, _) => NoneBut10(ins, a)
    case LoadImm64(_) => true
    case LoadFunc => true
    case _ => forall r | 0 <= r <= 9 :: a[r] == NotStack
  }

  lemma {:induction false} FollowedExactly(ins: Insn, a: Aliases)
    ensures Follows(ins, a) <==> Followed(ins, a)
  {
    forall r: int
      ensures ForwardArg(ins.imm, r) <==> FrameSound.AccessesForward(ins.imm, r)
    {
      FrameSound.ForwardIsKnown(ins.imm, r);
    }
  }

  /** What is known of each register afterwards. */
  lemma {:induction false} KnownAfter(ins: Insn, a: Aliases, r: Reg)
    ensures After(ins, a)[r] ==
      if ins.op.CallHelper? || ins.op.CallKfunc? || ins.op.CallFunc? then (if r <= 5 then NotStack else a[r])
      else if ins.op.Exit? then (if r <= 9 then NotStack else a[r])
      else if r != ins.dst || ins.op.StoreImm? || ins.op.Store? || ins.op.Atomic? || ins.op.LoadLegacy? then a[r]
      else if WholeCopy(ins) then a[ins.src]
      else if ConstantShift(ins) then (if a[r].Stack? then Stack(a[r].off + ShiftOf(ins)) else NotStack)
      else if ins.op.Alu? || ins.op.LoadImm64? || ins.op.LoadFunc? || (ins.op.Load? && !ins.op.signed) then NotStack
      else a[r]
  {
  }

  /** The depth one instruction needs: of its access through an alias, of the address it forms, of its arguments. */
  lemma {:induction false} NeededExactly(ins: Insn, a: Aliases, depth: int)
    ensures Bounded(ins, a, depth) <==>
      (ConstantShift(ins) && a[ins.dst].Stack? ==> -depth <= a[ins.dst].off + ShiftOf(ins) <= 0) &&
      (ins.op.Load? && !ins.op.signed && a[ins.src].Stack? ==> -depth <= a[ins.src].off + ins.off <= 0) &&
      ((ins.op.StoreImm? || ins.op.Store?) && a[ins.dst].Stack? ==> -depth <= a[ins.dst].off + ins.off <= 0) &&
      (ins.op.CallHelper? || ins.op.CallKfunc? || ins.op.CallFunc? ==> forall r | 1 <= r <= 5 && a[r].Stack? :: -depth <= a[r].off <= 0)
    ensures DirectOk(ins, depth) <==>
      (ins.op.Load? && ins.src == 10 ==> -depth <= ins.off) &&
      ((ins.op.StoreImm? || ins.op.Store? || ins.op.Atomic?) && ins.dst == 10 ==> -depth <= ins.off)
  {
  }

  // ---------------------------------------------------------------- the aliases are the values

  /** Each alias is the register's value; the other registers point elsewhere. */
  ghost predicate Exactly(a: Aliases, regs: seq<Value>, d: nat) {
    |regs| == 11 && forall r | 0 <= r <= 10 :: if a[r].Stack? then regs[r] == Ptr(Frame(d), a[r].off) else FrameSound.Clean(regs[r], d)
  }

  /** Through arithmetic the pass follows, every alias stays the exact value and nothing else becomes a pointer into the
      frame. */
  lemma {:induction false} ArithmeticExactly(env: Env, L: Loaded, a: Aliases, s: State, ins: Insn, d: nat)
    requires Exactly(a, s.regs, d) && ins.op.Alu? && Follows(ins, a) && ins.dst != 10
    ensures var o := Exec(env, L, s, ins); o.Running? && Exactly(After(ins, a), o.s.regs, d)
  {
  }
}
