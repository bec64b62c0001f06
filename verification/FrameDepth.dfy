/** How deep one function reaches into its own stack frame: one linear pass over its instructions that follows
    constant aliases of R10 inside basic blocks, and why its answer bounds every execution. */
module FrameDepth {
  import opened Machine
  import Liveness

  // ---------------------------------------------------------------- the pass, instruction by instruction

  /** What the pass knows of a register: an alias of R10 at a constant distance, or nothing. */
  datatype Alias = NotStack | Stack(off: int)
  type Aliases = a: seq<Alias> | |a| == 11 witness seq(11, _ => NotStack)

  const MAX_STACK := 512

  function Initial(): Aliases {
    seq(10, _ => NotStack) + [Stack(0)]
  }

  predicate Live(a: Aliases) {
    exists r | 0 <= r < 10 :: a[r].Stack?
  }

  /** Helpers that neither keep nor return a stack pointer and only access memory forward of it:
      map_lookup_elem, map_update_elem, map_delete_elem and xdp_load_bytes. */
  predicate ForwardArg(id: int, r: int) {
    ((id == 1 || id == 3) && r == 2) || (id == 2 && (r == 2 || r == 3)) || (id == 189 && r == 3)
  }

  predicate CopiesAlias(ins: Insn) {
    ins.op == Alu(true, Mov, true) && ins.off == 0
  }

  predicate MovesAlias(ins: Insn) {
    ins.op == Alu(true, Add, false) || ins.op == Alu(true, Sub, false)
  }

  function MovedOff(ins: Insn, off: int): int {
    if ins.op.Alu? && ins.op.alu.Add? then off + ins.imm else off - ins.imm
  }

  predicate IsCall(ins: Insn) {
    ins.op.CallHelper? || ins.op.CallKfunc? || ins.op.CallFunc?
  }

  function After(ins: Insn, a: Aliases): Aliases {
    match ins.op
    case Alu(_, _, _) =>
      if CopiesAlias(ins) then a[ins.dst := a[ins.src]]
      else if MovesAlias(ins) then (if a[ins.dst].Stack? then a[ins.dst := Stack(MovedOff(ins, a[ins.dst].off))] else a)
      else a[ins.dst := NotStack]
    case LoadImm64(_) => a[ins.dst := NotStack]
    case LoadFunc => a[ins.dst := NotStack]
    case Load(_, signed) => if signed then a else a[ins.dst := NotStack]
    case CallHelper => Forget(a, 6)
    case CallKfunc => Forget(a, 6)
    case CallFunc => Forget(a, 6)
    case Exit => Forget(a, 10)
    case _ => a
  }

  function Forget(a: Aliases, n: nat): Aliases
    requires n <= 11
  {
    seq(n, _ => NotStack) + a[n..]
  }

  /** The stack offset an instruction other than a call touches or forms, if any. */
  function Offset(ins: Insn, a: Aliases): (r: Alias) {
    match ins.op
    case Alu(_, _, _) => if MovesAlias(ins) && a[ins.dst].Stack? then Stack(MovedOff(ins, a[ins.dst].off)) else NotStack
    case Load(_, signed) => if !signed && a[ins.src].Stack? then Stack(a[ins.src].off + ins.off) else NotStack
    case StoreImm(_) => if a[ins.dst].Stack? then Stack(a[ins.dst].off + ins.off) else NotStack
    case Store(_) => if a[ins.dst].Stack? then Stack(a[ins.dst].off + ins.off) else NotStack
    case _ => NotStack
  }

  predicate OffsetOk(o: Alias, depth: int) {
    o.Stack? ==> -depth <= o.off <= 0
  }

  /** Every offset the instruction touches or forms lies in the top `depth` bytes of the frame. */
  predicate Bounded(ins: Insn, a: Aliases, depth: int) {
    OffsetOk(Offset(ins, a), depth) && (IsCall(ins) ==> forall r | 1 <= r <= 5 :: OffsetOk(a[r], depth))
  }

  /** The pass can follow every alias through the instruction. */
  predicate Follows(ins: Insn, a: Aliases) {
    Bounded(ins, a, MAX_STACK) &&
    match ins.op
    case Alu(_, op, fromReg) =>
      CopiesAlias(ins) || MovesAlias(ins) || (op.Mov? && !fromReg) || (a[ins.dst].NotStack? && (fromReg ==> a[ins.src].NotStack?))
    case LoadImm64(_) => true
    case LoadFunc => true
    case Load(_, signed) => signed ==> Unaliased(ins, a)
    case StoreImm(_) => true
    case Store(_) => a[ins.src].NotStack?
    case CallHelper => forall r | 1 <= r <= 5 && a[r].Stack? :: ForwardArg(ins.imm, r)
    case CallKfunc => forall r | 1 <= r <= 5 :: a[r].NotStack?
    case CallFunc => forall r | 1 <= r <= 5 :: a[r].NotStack?
    case Exit => a[0].NotStack?
    case LoadLegacy => Unaliased(ins, a)
    case Atomic(_, _, _) => Unaliased(ins, a)
    case _ => !Live(a)
  }

  predicate Unaliased(ins: Insn, a: Aliases) {
    !Live(a) && ins.src != FP && ins.dst != FP
  }

  /** A direct access through R10, whatever its mode. */
  predicate DirectOk(ins: Insn, depth: int) {
    (ins.op.Load? && ins.src == FP ==> -ins.off <= depth) &&
    ((ins.op.StoreImm? || ins.op.Store? || ins.op.Atomic?) && ins.dst == FP ==> -ins.off <= depth)
  }

  // ---------------------------------------------------------------- the pass, function by function

  function AliasesAt(p: seq<Insn>, lo: nat, i: nat): Aliases
    requires lo <= i <= |p|
  {
    if i == lo then Initial() else After(p[i - 1], AliasesAt(p, lo, i - 1))
  }

  /** The last instruction of the function carrying the symbol, or -1. */
  function LocalSym(p: seq<Insn>, lo: nat, hi: nat, name: string): (i: int)
    requires lo <= hi <= |p|
    ensures i < 0 ==> forall k | lo <= k < hi :: p[k].sym != name
    ensures i >= 0 ==> lo <= i < hi && p[i].sym == name && forall k | i < k < hi :: p[k].sym != name
  {
    if hi == lo then -1 else if p[hi - 1].sym == name then hi - 1 else LocalSym(p, lo, hi - 1, name)
  }

  function LocalTarget(p: seq<Insn>, lo: nat, hi: nat, j: nat): int
    requires lo <= j < hi <= |p|
  {
    if p[j].ref == "" then Target(p, Slot(p, j), p[j])
    else
      var k := LocalSym(p, lo, hi, p[j].ref);
      if k < 0 then -1 else Slot(p, k)
  }

  predicate Resolves(p: seq<Insn>, lo: nat, hi: nat, j: nat)
    requires lo <= j < hi <= |p|
  {
    Liveness.IsJump(p[j]) && p[j].ref != "" ==> LocalSym(p, lo, hi, p[j].ref) >= 0
  }

  predicate IsTarget(p: seq<Insn>, lo: nat, hi: nat, pc: int)
    requires lo <= hi <= |p|
  {
    exists j | lo <= j < hi :: Liveness.IsJump(p[j]) && LocalTarget(p, lo, hi, j) == pc
  }

  /** No alias is live where control joins, and the instruction can be followed. */
  predicate FollowsAt(p: seq<Insn>, lo: nat, hi: nat, i: nat)
    requires lo <= i < hi <= |p|
  {
    (IsTarget(p, lo, hi, Slot(p, i)) ==> !Live(AliasesAt(p, lo, i))) && Follows(p[i], AliasesAt(p, lo, i))
  }

  predicate Exact(p: seq<Insn>, lo: nat, hi: nat)
    requires lo <= hi <= |p|
  {
    (forall j | lo <= j < hi :: Resolves(p, lo, hi, j)) && (forall i | lo <= i < hi :: FollowsAt(p, lo, hi, i))
  }

  predicate BoundedAt(p: seq<Insn>, lo: nat, i: nat, depth: int)
    requires lo <= i < |p|
  {
    Bounded(p[i], AliasesAt(p, lo, i), depth) && DirectOk(p[i], depth)
  }

  function Max(a: int, b: int): int {
    if a < b then b else a
  }

  method Count(depth: nat, o: Alias, precise: bool) returns (d: nat, ok: bool)
    ensures depth <= d
    ensures ok == (precise && OffsetOk(o, MAX_STACK))
    ensures ok ==> OffsetOk(o, d) && (d == depth || !OffsetOk(o, d - 1))
  {
    if o.NotStack? {
      return depth, precise;
    }
    if o.off < -MAX_STACK || o.off > 0 {
      return depth, false;
    }
    return Max(depth, -o.off), precise;
  }

  /** One instruction of the linear pass, on the shared alias table. */
  method Visit(ins: Insn, regs: array<Alias>, depth: nat) returns (d: nat, precise: bool)
    requires regs.Length == 11
    modifies regs
    ensures depth <= d
    ensures precise == Follows(ins, old(regs[..]))
    ensures precise ==> regs[..] == After(ins, old(regs[..]))
    ensures precise ==> Bounded(ins, old(regs[..]), d) && (d == depth || !Bounded(ins, old(regs[..]), d - 1))
  {
    ghost var a: Aliases := regs[..];
    d, precise := Count(depth, Offset(ins, regs[..]), true);
    match ins.op {
      case Alu(_, op, fromReg) =>
        if CopiesAlias(ins) {
          regs[ins.dst] := regs[ins.src];
        } else if MovesAlias(ins) {
          if regs[ins.dst].Stack? {
            regs[ins.dst] := Stack(MovedOff(ins, regs[ins.dst].off));
          }
        } else {
          if !op.Mov? || fromReg {
            precise := regs[ins.dst].NotStack? && (!fromReg || regs[ins.src].NotStack?);
          }
          regs[ins.dst] := NotStack;
        }
      case LoadImm64(_) => regs[ins.dst] := NotStack;
      case LoadFunc => regs[ins.dst] := NotStack;
      case Load(_, signed) =>
        if signed {
          precise := Unaliased(ins, regs[..]);
        } else {
          regs[ins.dst] := NotStack;
        }
      case StoreImm(_) =>
      case Store(_) => precise := precise && regs[ins.src].NotStack?;
      case CallHelper => d, precise := VisitCall(ins, regs, d);
      case CallKfunc => d, precise := VisitCall(ins, regs, d);
      case CallFunc => d, precise := VisitCall(ins, regs, d);
      case Exit =>
        precise := regs[0].NotStack?;
        Clear(regs, 10);
      case LoadLegacy => precise := Unaliased(ins, regs[..]);
      case Atomic(_, _, _) => precise := Unaliased(ins, regs[..]);
      case Goto => precise := !Live(regs[..]);
      case GotoLong => precise := !Live(regs[..]);
      case GotoIndirect => precise := !Live(regs[..]);
      case Branch(_, _, _) => precise := !Live(regs[..]);
    }
  }

  method Clear(regs: array<Alias>, n: nat)
    requires regs.Length == 11 && n <= 11
    modifies regs
    ensures regs[..] == Forget(old(regs[..]), n)
  {
    for r := 0 to n
      invariant forall k | 0 <= k < 11 :: regs[k] == if k < r then NotStack else old(regs[k])
    {
      regs[r] := NotStack;
    }
  }

  predicate ArgsOk(a: Aliases, depth: int, n: nat)
    requires n <= 6
  {
    forall k | 1 <= k < n :: OffsetOk(a[k], depth)
  }

  method VisitCall(ins: Insn, regs: array<Alias>, depth: nat) returns (d: nat, precise: bool)
    requires regs.Length == 11 && IsCall(ins)
    modifies regs
    ensures depth <= d
    ensures precise == Follows(ins, old(regs[..]))
    ensures regs[..] == After(ins, old(regs[..]))
    ensures precise ==> Bounded(ins, old(regs[..]), d) && (d == depth || !Bounded(ins, old(regs[..]), d - 1))
  {
    d, precise := depth, true;
    ghost var a: Aliases := regs[..];
    for r := 1 to 6
      invariant depth <= d && regs[..] == a
      invariant precise <==> ArgsOk(a, MAX_STACK, r) && forall k | 1 <= k < r && a[k].Stack? :: ins.op.CallHelper? && ForwardArg(ins.imm, k)
      invariant precise ==> ArgsOk(a, d, r)
      invariant precise ==> d == depth || !ArgsOk(a, d - 1, r)
    {
      var forward := regs[r].NotStack? || (ins.op.CallHelper? && ForwardArg(ins.imm, r));
      assert regs[r] == a[r];
      d, precise := Count(d, regs[r], precise && forward);
    }
    assert forall b: int :: ArgsOk(a, b, 6) <==> Bounded(ins, a, b);
    Clear(regs, 6);
  }

  /** The target set is right about instruction `i`. */
  predicate Joins(p: seq<Insn>, lo: nat, hi: nat, targets: set<int>, i: nat)
    requires lo <= i < hi <= |p|
  {
    Slot(p, i) in targets <==> IsTarget(p, lo, hi, Slot(p, i))
  }

  method Targets(p: seq<Insn>, lo: nat, hi: nat) returns (ok: bool, targets: set<int>)
    requires lo <= hi <= |p|
    ensures ok <==> forall j | lo <= j < hi :: Resolves(p, lo, hi, j)
    ensures ok ==> forall i | lo <= i < hi :: Joins(p, lo, hi, targets, i)
  {
    ok, targets := true, {};
    for j := lo to hi
      invariant forall k | lo <= k < j :: Resolves(p, lo, hi, k)
      invariant forall pc :: pc in targets <==> exists k | lo <= k < j :: Liveness.IsJump(p[k]) && LocalTarget(p, lo, hi, k) == pc
    {
      if Liveness.IsJump(p[j]) {
        if p[j].ref != "" && LocalSym(p, lo, hi, p[j].ref) < 0 {
          assert !Resolves(p, lo, hi, j);
          return false, targets;
        }
        targets := targets + {LocalTarget(p, lo, hi, j)};
      }
    }
  }

  /** Some instruction needs all of `depth`. */
  predicate Tight(p: seq<Insn>, lo: nat, hi: nat, depth: nat)
    requires lo <= hi <= |p|
  {
    depth == 0 || exists i | lo <= i < hi :: Needs(p, lo, i, depth)
  }

  predicate Needs(p: seq<Insn>, lo: nat, i: nat, depth: int)
    requires lo <= i < |p|
  {
    !BoundedAt(p, lo, i, depth - 1)
  }

  method DirectDepth(p: seq<Insn>, lo: nat, hi: nat) returns (d: nat)
    requires lo <= hi <= |p|
    ensures Direct(p, lo, hi, d)
    ensures Tight(p, lo, hi, d)
  {
    d := 0;
    for i := lo to hi
      invariant forall k | lo <= k < i :: DirectOk(p[k], d)
      invariant Tight(p, lo, hi, d)
    {
      if !DirectOk(p[i], d) {
        d := -p[i].off;
        assert Needs(p, lo, i, d);
      }
    }
  }

  /** The frame depth of instructions `lo..hi`: exact when every alias can be followed, and then the least depth
      that covers what the instructions touch or form; otherwise at least the audited bound. */
  method FrameDepthExact(p: seq<Insn>, lo: nat, hi: nat, lowest: int) returns (depth: nat, exact: bool)
    requires lo <= hi <= |p|
    ensures exact <==> Exact(p, lo, hi)
    ensures Direct(p, lo, hi, depth)
    ensures exact ==> forall i | lo <= i < hi :: BoundedAt(p, lo, i, depth)
    ensures exact ==> Tight(p, lo, hi, depth)
    ensures !exact ==> depth >= -lowest
  {
    depth := DirectDepth(p, lo, hi);
    var resolved, targets := Targets(p, lo, hi);
    exact := resolved;
    if !resolved {
      return Max(depth, -lowest), false;
    }
    depth, exact := Scan(p, lo, hi, targets, depth);
    if !exact {
      depth := Max(depth, -lowest);
    }
  }

  /** The linear pass itself. */
  method Scan(p: seq<Insn>, lo: nat, hi: nat, targets: set<int>, direct: nat) returns (depth: nat, exact: bool)
    requires lo <= hi <= |p| && Direct(p, lo, hi, direct) && Tight(p, lo, hi, direct)
    requires forall i | lo <= i < hi :: Joins(p, lo, hi, targets, i)
    ensures direct <= depth
    ensures exact ==> Passed(p, lo, hi, hi, depth) && Tight(p, lo, hi, depth)
    ensures !exact ==> exists i | lo <= i < hi :: !FollowsAt(p, lo, hi, i)
  {
    depth, exact := direct, true;
    var regs := new Alias[11](r => if r == 10 then Stack(0) else NotStack);
    assert regs[..] == Initial();
    for i := lo to hi
      invariant regs[..] == AliasesAt(p, lo, i) && Tight(p, lo, hi, depth) && direct <= depth
      invariant Passed(p, lo, hi, i, depth)
    {
      ghost var was := depth;
      assert Joins(p, lo, hi, targets, i) && DirectOk(p[i], direct);
      depth, exact := VisitAt(p, lo, hi, i, targets, regs, depth);
      if !exact {
        return;
      }
      BoundGrows(p, lo, hi, i, was, depth);
    }
    exact := true;
  }

  predicate Direct(p: seq<Insn>, lo: nat, hi: nat, depth: int)
    requires lo <= hi <= |p|
  {
    forall k | lo <= k < hi :: DirectOk(p[k], depth)
  }

  /** Instructions `lo..i` were followed and stay within `depth`. */
  predicate Passed(p: seq<Insn>, lo: nat, hi: nat, i: nat, depth: int)
    requires lo <= i <= hi <= |p|
  {
    forall k | lo <= k < i :: FollowsAt(p, lo, hi, k) && BoundedAt(p, lo, k, depth)
  }

  method VisitAt(p: seq<Insn>, lo: nat, hi: nat, i: nat, targets: set<int>, regs: array<Alias>, depth: nat) returns (d: nat, precise: bool)
    requires lo <= i < hi <= |p| && regs.Length == 11 && regs[..] == AliasesAt(p, lo, i)
    requires Joins(p, lo, hi, targets, i) && DirectOk(p[i], depth)
    modifies regs
    ensures depth <= d && precise == FollowsAt(p, lo, hi, i)
    ensures precise ==> regs[..] == AliasesAt(p, lo, i + 1) && BoundedAt(p, lo, i, d)
    ensures precise ==> d == depth || Needs(p, lo, i, d)
  {
    if Slot(p, i) in targets && Live(regs[..]) {
      return depth, false;
    }
    d, precise := Visit(p[i], regs, depth);
  }

  lemma {:induction false} BoundGrows(p: seq<Insn>, lo: nat, hi: nat, i: nat, a: nat, b: nat)
    requires lo <= i <= hi <= |p| && a <= b
    requires Passed(p, lo, hi, i, a)
    ensures Passed(p, lo, hi, i, b)
  {
    forall k | lo <= k < i
      ensures FollowsAt(p, lo, hi, k) && BoundedAt(p, lo, k, b)
    {
      assert FollowsAt(p, lo, hi, k) && BoundedAt(p, lo, k, a);
    }
  }
}
