/** The rewriter: a six-slot save/call/restore sequence inserted after one audited load, every
    branch, call and callback reference relocated, and the observation hook appended. */
module Splice {
  import opened Machine
  import Liveness

  /** Slots the spliced call site occupies, and slots of the appended hook. */
  const INSERT_SLOTS := 6
  const VALUE_REG: Reg := 2
  const SITE_REG: Reg := 1

  datatype Request = Request(site: nat, hook: string, ptr: Reg, off: int, lowest: int)

  // ---------------------------------------------------------------- spill slots

  /** Remainder truncated toward zero. */
  function TruncRem(a: int, b: int): int
    requires b > 0
  {
    if a < 0 then -(-a % b) else a % b
  }

  /** Two 8-byte slots strictly below the 8-byte floor of the audited mark; refused exactly when
      they would leave the 512-byte stack. */
  function SpillSlots(lowest: int): (r: Result<(int, int)>)
    requires lowest <= 0
    ensures r.Ok? ==> r.value.0 % 8 == 0 && r.value.1 == r.value.0 - 8 && r.value.1 >= -512
    ensures r.Ok? ==> r.value.0 + 8 <= lowest < r.value.0 + 16
    ensures r.Refused? <==> lowest < -496
  {
    var m := TruncRem(lowest, 8);
    var floor := if m != 0 then lowest - (8 + m) else lowest;
    if floor - 16 < -512 then Refused(SpillOutsideStack) else Ok((floor - 8, floor - 16))
  }

  // ---------------------------------------------------------------- the site

  predicate RedefinesSiteReg(next: Insn) {
    next.dst == SITE_REG &&
    match next.op
    case Alu(_, op, fromReg) => op.Mov? && !(fromReg && next.src == SITE_REG)
    case LoadImm64(_) => true
    case LoadFunc => true
    case Load(_, _) => next.src != SITE_REG
    case _ => false
  }

  predicate ShapeOk(load: Insn, next: Insn, req: Request) {
    req.ptr == 0 && load.op == Load(4, false) && load.dst == VALUE_REG && load.src == req.ptr &&
    load.off == req.off && load.imm == 0 && RedefinesSiteReg(next)
  }

  function AsInt32(n: nat): int
    requires n < 0x1_0000_0000
  {
    if n < 0x8000_0000 then n else n - 0x1_0000_0000
  }

  function Plain(op: Op, dst: Reg, src: Reg, off: int, imm: int, ref: string): Insn {
    Insn(op, dst, src, off, imm, ref, "", NotAFunction)
  }

  function Insertion(req: Request, spillR0: int, spillVal: int): (s: seq<Insn>)
    requires req.site < 0x1_0000_0000
    ensures |s| == INSERT_SLOTS
  {
    [ Plain(Store(8), FP, 0, spillR0, 0, ""),
      Plain(Store(8), FP, VALUE_REG, spillVal, 0, ""),
      Plain(Alu(false, Mov, false), SITE_REG, 0, 0, AsInt32(req.site), ""),
      Plain(CallFunc, 0, 1, 0, -1, req.hook),
      Plain(Load(8, false), 0, FP, spillR0, 0, ""),
      Plain(Load(8, false), VALUE_REG, FP, spillVal, 0, "") ]
  }

  /** The generated hook: it returns site ^ value and touches no memory. */
  function Hook(req: Request): (s: seq<Insn>)
    ensures |s| == 3
  {
    [ Insn(Alu(false, Mov, true), 0, SITE_REG, 0, 0, "", req.hook, GlobalFunc),
      Plain(Alu(false, OtherAlu(0xa0), true), 0, VALUE_REG, 0, 0, ""),
      Plain(Exit, 0, 0, 0, 0, "") ]
  }

  // ---------------------------------------------------------------- relocation

  function Mapped(site: int, pc: int): int {
    if pc > site then pc + INSERT_SLOTS else pc
  }

  /** A classified reference: where it leads, whether its field must be patched, and whether
      that field is the 32-bit constant of a function reference. */
  datatype Reloc = Reloc(target: int, relative: bool, isFunc: bool)

  predicate IsInt32(n: int) { -0x8000_0000 <= n < 0x8000_0000 }
  predicate IsInt16(n: int) { -0x8000 <= n < 0x8000 }

  function RelocTarget(p: seq<Insn>, i: nat): Result<Reloc>
    requires i < |p|
  {
    var ins, pc := p[i], Slot(p, i);
    match ins.op
    case LoadFunc =>
      if ins.off != 0 || !IsInt32(ins.imm) then Refused(Malformed)
      else if ins.ref != "" && ins.imm != -1 then Refused(AlreadyResolved)
      else if ins.ref != "" && Liveness.CountSym(p, ins.ref, |p|) != 1 then Refused(Ambiguous)
      else
        var t := Target(p, pc, ins);
        var j := IndexOf(p, t);
        if j < 0 then Refused(NotABoundary)
        else if t == 0 || p[j].fn.NotAFunction? then Refused(NotASubprogram)
        else Ok(Reloc(t, ins.ref == "", true))
    case CallFunc =>
      if ins.ref != "" then
        if ins.imm != -1 then Refused(AlreadyResolved) else Ok(Reloc(0, false, true))
      else if IndexOf(p, Target(p, pc, ins)) < 0 then Refused(NotABoundary)
      else Ok(Reloc(Target(p, pc, ins), true, true))
    case GotoIndirect => Refused(Unsupported)
    case GotoLong =>
      Refused(Unsupported)
    case Goto => RelocBranch(p, pc, ins)
    case Branch(_, _, _) => RelocBranch(p, pc, ins)
    case _ =>
      if ins.ref != "" && !(ins.op.LoadImm64? && ins.op.isMap) then Refused(UnknownReference)
      else Ok(Reloc(0, false, false))
  }

  function RelocBranch(p: seq<Insn>, pc: int, ins: Insn): Result<Reloc> {
    if ins.ref != "" then Refused(Unsupported)
    else if IndexOf(p, Target(p, pc, ins)) < 0 then Refused(NotABoundary)
    else Ok(Reloc(Target(p, pc, ins), true, false))
  }

  function RelocateOffset(ins: Insn, pc: int, target: int, isFunc: bool): Result<Insn> {
    var delta := target - pc - 1;
    if isFunc then
      if !IsInt32(delta) then Refused(Overflow) else Ok(ins.(imm := delta))
    else
      if !IsInt16(delta) then Refused(Overflow) else Ok(ins.(off := delta))
  }

  /** Instruction `i` as the spliced program carries it. */
  function Relocated(p: seq<Insn>, site: int, i: nat): Result<Insn>
    requires i < |p|
  {
    match RelocTarget(p, i)
    case Refused(why) => Refused(why)
    case Ok(r) =>
      if !r.relative then Ok(p[i])
      else RelocateOffset(p[i], Mapped(site, Slot(p, i)), Mapped(site, r.target), r.isFunc)
  }

  // ---------------------------------------------------------------- splice

  predicate SiteOk(p: seq<Insn>, req: Request) {
    var idx := IndexOf(p, req.site);
    0 <= idx && idx + 1 < |p| && ShapeOk(p[idx], p[idx + 1], req)
  }

  predicate Spliceable(p: seq<Insn>, req: Request)
    requires req.lowest <= 0
  {
    SiteOk(p, req) && SpillSlots(req.lowest).Ok? && forall i | 0 <= i < |p| :: Relocated(p, req.site, i).Ok?
  }

  /** Where instruction `i` of the input ends up. */
  function Moved(idx: int, i: int): int {
    if i > idx then i + INSERT_SLOTS else i
  }

  ghost predicate IsSplice(p: seq<Insn>, req: Request, out: seq<Insn>)
    requires req.lowest <= 0 && req.site < 0x1_0000_0000
  {
    Spliceable(p, req) && |out| == |p| + INSERT_SLOTS &&
    var idx := IndexOf(p, req.site);
    var spill := SpillSlots(req.lowest).value;
    out[idx + 1..idx + 7] == Insertion(req, spill.0, spill.1) &&
    forall i | 0 <= i < |p| :: out[Moved(idx, i)] == Relocated(p, req.site, i).value
  }

  /** The stream after `moved` has been emitted, the insertion following instruction `idx`. */
  function Emitted(moved: seq<Insn>, insert: seq<Insn>, idx: nat): seq<Insn> {
    if |moved| <= idx then moved else moved[..idx + 1] + insert + moved[idx + 1..]
  }

  lemma {:induction false} EmitOne(moved: seq<Insn>, insert: seq<Insn>, idx: nat, ins: Insn)
    ensures Emitted(moved + [ins], insert, idx)
         == Emitted(moved, insert, idx) + [ins] + (if |moved| == idx then insert else [])
  {
  }

  lemma {:induction false} EmittedAt(moved: seq<Insn>, insert: seq<Insn>, idx: nat)
    requires idx < |moved| && |insert| == INSERT_SLOTS
    ensures var out := Emitted(moved, insert, idx);
      |out| == |moved| + INSERT_SLOTS && out[idx + 1..idx + 7] == insert &&
      forall k | 0 <= k < |moved| :: out[Moved(idx, k)] == moved[k]
  {
    var head, tail := moved[..idx + 1], moved[idx + 1..];
    var out := head + insert + tail;
    Middle(head, insert, tail);
    forall k | 0 <= k < |moved|
      ensures out[Moved(idx, k)] == moved[k]
    {
      if k <= idx {
        assert out[k] == head[k];
      } else {
        assert out[k + INSERT_SLOTS] == tail[k - idx - 1];
      }
    }
  }

  lemma {:induction false} Middle(a: seq<Insn>, b: seq<Insn>, c: seq<Insn>)
    ensures (a + b + c)[|a|..|a| + |b|] == b
  {
  }

  /** Rebuilds the stream with the call site on the load's fall-through edge; refused exactly when
      the site, the spill slots or some reference does not fit. */
  method Splice(p: seq<Insn>, req: Request) returns (r: Result<seq<Insn>>)
    requires req.lowest <= 0 && req.site < 0x1_0000_0000
    ensures r.Ok? <==> Spliceable(p, req)
    ensures r.Ok? ==> IsSplice(p, req, r.value)
  {
    var idx := IndexOf(p, req.site);
    if idx < 0 {
      return Refused(NotABoundary);
    }
    if idx + 1 >= |p| {
      return Refused(BadSite);
    }
    if !ShapeOk(p[idx], p[idx + 1], req) {
      return Refused(BadSite);
    }
    var spill := SpillSlots(req.lowest);
    if spill.Refused? {
      return Refused(spill.why);
    }
    var insert := Insertion(req, spill.value.0, spill.value.1);
    var output: seq<Insn> := [];
    ghost var moved: seq<Insn> := [];
    for i := 0 to |p|
      invariant |moved| == i
      invariant forall k | 0 <= k < i :: Relocated(p, req.site, k) == Ok(moved[k])
      invariant output == Emitted(moved, insert, idx)
    {
      var ins := Relocated(p, req.site, i);
      if ins.Refused? {
        return Refused(ins.why);
      }
      EmitOne(moved, insert, idx, ins.value);
      IndexOfSlot(p, i);
      moved := moved + [ins.value];
      output := output + [ins.value];
      if Slot(p, i) == req.site {
        output := output + insert;
      }
    }
    EmittedAt(moved, insert, idx);
    return Ok(output);
  }

  // ---------------------------------------------------------------- transform

  /** Symbolic function references resolve to exactly one symbol, map loads to a defined map, and
      nothing refers to the hook yet. */
  predicate ReferencesOk(p: seq<Insn>, hook: string, maps: set<string>) {
    forall i | 0 <= i < |p| && p[i].ref != "" ::
      p[i].ref != hook &&
      (Liveness.IsFuncRef(p[i]) ==> Liveness.CountSym(p, p[i].ref, |p|) == 1) &&
      (p[i].op == LoadImm64(true) ==> p[i].ref in maps)
  }

  predicate NoCollision(p: seq<Insn>, hook: string) {
    hook != "" && forall i | 0 <= i < |p| :: p[i].sym != hook
  }

  /** Every direct stack reference respects the audited mark. */
  predicate StackBoundOk(p: seq<Insn>, lowest: int) {
    forall i | 0 <= i < |p| && (p[i].dst == FP || p[i].src == FP) :: lowest <= p[i].off
  }

  predicate RequestOk(req: Request) {
    -512 <= req.lowest <= 0 && req.site < 0x1_0000_0000 && req.ptr == 0
  }

  predicate Accepts(p: seq<Insn>, req: Request, maps: set<string>) {
    RequestOk(req) && NoCollision(p, req.hook) && ReferencesOk(p, req.hook, maps) &&
    StackBoundOk(p, req.lowest) && Spliceable(p, req)
  }

  ghost predicate IsTransform(p: seq<Insn>, req: Request, q: seq<Insn>) {
    RequestOk(req) && |q| == |p| + INSERT_SLOTS + 3 &&
    IsSplice(p, req, q[..|p| + INSERT_SLOTS]) && q[|p| + INSERT_SLOTS..] == Hook(req)
  }

  method Transform(p: seq<Insn>, req: Request, maps: set<string>) returns (r: Result<seq<Insn>>)
    ensures r.Ok? <==> Accepts(p, req, maps)
    ensures r.Ok? ==> IsTransform(p, req, r.value)
  {
    if !RequestOk(req) {
      return Refused(BadRequest);
    }
    if !NoCollision(p, req.hook) {
      return Refused(Collision);
    }
    if !ReferencesOk(p, req.hook, maps) {
      return Refused(Unresolved);
    }
    if !StackBoundOk(p, req.lowest) {
      return Refused(BelowAuditedBound);
    }
    var out := Splice(p, req);
    if out.Refused? {
      return out;
    }
    var q := out.value + Hook(req);
    assert q[..|p| + INSERT_SLOTS] == out.value;
    return Ok(q);
  }
}
