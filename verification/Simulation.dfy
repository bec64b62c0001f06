/** The rewritten program does what the original does. */
module Simulation {
  import opened Machine
  import opened Agreement
  import opened Liveness
  import opened Splice

  /** An accepted rewrite: the original `p`, the request, and the result `q`.  The conditions on every
      instruction are kept behind a mark, so that only the few proofs that use them see them. */
  ghost predicate Woven(p: seq<Insn>, req: Request, maps: set<string>, q: seq<Insn>) {
    RequestOk(req) && SiteOk(p, req) && SpillSlots(req.lowest).Ok? && |q| == |p| + INSERT_SLOTS + 3 &&
    forall k: int {:trigger Unsealed(k)} :: Unsealed(k) ==> Accepts(p, req, maps) && IsTransform(p, req, q)
  }

  lemma {:induction false} AcceptedIsWoven(p: seq<Insn>, req: Request, maps: set<string>, q: seq<Insn>)
    ensures Woven(p, req, maps, q) <==> Accepts(p, req, maps) && IsTransform(p, req, q)
  {
    assert Unsealed(0);
  }

  // ---------------------------------------------------------------- where instructions went

  ghost function At(p: seq<Insn>, req: Request): int {
    IndexOf(p, req.site)
  }

  lemma {:induction false} WovenInsn(p: seq<Insn>, req: Request, maps: set<string>, q: seq<Insn>, i: nat)
    requires Woven(p, req, maps, q) && i < |p|
    ensures 0 <= Moved(At(p, req), i) < |q|
    ensures Relocated(p, req.site, i).Ok? && q[Moved(At(p, req), i)] == Relocated(p, req.site, i).value
    ensures q[Moved(At(p, req), i)].op == p[i].op && q[Moved(At(p, req), i)].sym == p[i].sym
    ensures q[Moved(At(p, req), i)].ref == p[i].ref
    ensures q[Moved(At(p, req), i)].dst == p[i].dst && q[Moved(At(p, req), i)].src == p[i].src
  {
    assert Unsealed(0);
    var out := q[..|p| + INSERT_SLOTS];
    assert out[Moved(At(p, req), i)] == Relocated(p, req.site, i).value;
  }

  lemma {:induction false} WovenInsertion(p: seq<Insn>, req: Request, maps: set<string>, q: seq<Insn>, k: nat)
    requires Woven(p, req, maps, q) && k < INSERT_SLOTS
    ensures 0 <= At(p, req) < |p|
    ensures var spill := SpillSlots(req.lowest).value;
      q[At(p, req) + 1 + k] == Insertion(req, spill.0, spill.1)[k]
  {
    assert Unsealed(0);
    var out := q[..|p| + INSERT_SLOTS];
    var idx := At(p, req);
    assert out[idx + 1..idx + 7][k] == out[idx + 1 + k];
  }

  lemma {:induction false} WovenHook(p: seq<Insn>, req: Request, maps: set<string>, q: seq<Insn>, k: nat)
    requires Woven(p, req, maps, q) && k < 3
    ensures q[|p| + INSERT_SLOTS + k] == Hook(req)[k]
  {
    assert Unsealed(0);
    assert q[|p| + INSERT_SLOTS..][k] == q[|p| + INSERT_SLOTS + k];
  }

  lemma {:induction false} SlotsBefore(p: seq<Insn>, req: Request, maps: set<string>, q: seq<Insn>, i: nat)
    requires Woven(p, req, maps, q) && i <= At(p, req) + 1
    ensures i <= |q| && i <= |p| && Slot(q, i) == Slot(p, i)
    decreases i
  {
    if i > 0 {
      SlotsBefore(p, req, maps, q, i - 1);
      WovenInsn(p, req, maps, q, i - 1);
    }
  }

  lemma {:induction false} SlotsInserted(p: seq<Insn>, req: Request, maps: set<string>, q: seq<Insn>, k: nat)
    requires Woven(p, req, maps, q) && k <= INSERT_SLOTS
    ensures At(p, req) + 1 + k <= |q| && Slot(q, At(p, req) + 1 + k) == req.site + 1 + k
    decreases k
  {
    if k == 0 {
      SlotsBefore(p, req, maps, q, At(p, req) + 1);
      NextSlot(p, At(p, req));
    } else {
      SlotsInserted(p, req, maps, q, k - 1);
      WovenInsertion(p, req, maps, q, k - 1);
      NextSlot(q, At(p, req) + k);
    }
  }

  lemma {:induction false} SlotsAfter(p: seq<Insn>, req: Request, maps: set<string>, q: seq<Insn>, i: nat)
    requires Woven(p, req, maps, q) && At(p, req) < i <= |p|
    ensures Slot(q, i + INSERT_SLOTS) == Slot(p, i) + INSERT_SLOTS
    decreases i
  {
    if i == At(p, req) + 1 {
      SlotsInserted(p, req, maps, q, INSERT_SLOTS);
      NextSlot(p, At(p, req));
    } else {
      SlotsAfter(p, req, maps, q, i - 1);
      SlotAfterOne(p, req, maps, q, i - 1);
    }
  }

  lemma {:induction false} SlotAfterOne(p: seq<Insn>, req: Request, maps: set<string>, q: seq<Insn>, i: nat)
    requires Woven(p, req, maps, q) && At(p, req) < i < |p|
    requires Slot(q, i + INSERT_SLOTS) == Slot(p, i) + INSERT_SLOTS
    ensures Slot(q, i + 1 + INSERT_SLOTS) == Slot(p, i + 1) + INSERT_SLOTS
  {
    WovenInsn(p, req, maps, q, i);
    NextSlot(q, i + INSERT_SLOTS);
    NextSlot(p, i);
  }

  lemma {:induction false} SlotsHook(p: seq<Insn>, req: Request, maps: set<string>, q: seq<Insn>, k: nat)
    requires Woven(p, req, maps, q) && k <= 3
    ensures Slot(q, |p| + INSERT_SLOTS + k) == Slot(p, |p|) + INSERT_SLOTS + k
    decreases k
  {
    if k == 0 {
      SlotsAfter(p, req, maps, q, |p|);
    } else {
      SlotsHook(p, req, maps, q, k - 1);
      WovenHook(p, req, maps, q, k - 1);
      NextSlot(q, |p| + INSERT_SLOTS + k - 1);
    }
  }

  /** Every original instruction boundary keeps its instruction, at the mapped slot. */
  lemma {:induction false} BoundaryMoves(p: seq<Insn>, req: Request, maps: set<string>, q: seq<Insn>, i: nat)
    requires Woven(p, req, maps, q) && i < |p|
    ensures Slot(q, Moved(At(p, req), i)) == Mapped(req.site, Slot(p, i))
    ensures IndexOf(q, Mapped(req.site, Slot(p, i))) == Moved(At(p, req), i)
  {
    WovenInsn(p, req, maps, q, i);
    if i <= At(p, req) {
      SlotsBefore(p, req, maps, q, i);
      if i < At(p, req) { SlotIncreases(p, i, At(p, req)); }
    } else {
      SlotsAfter(p, req, maps, q, i);
      SlotIncreases(p, At(p, req), i);
    }
    IndexOfSlot(q, Moved(At(p, req), i));
  }

  /** The slot after an instruction other than the site is mapped along with it. */
  lemma {:induction false} NextMoves(p: seq<Insn>, site: int, i: nat)
    requires 0 <= IndexOf(p, site) && i < |p| && i != IndexOf(p, site)
    ensures Mapped(site, Slot(p, i) + Width(p[i])) == Mapped(site, Slot(p, i)) + Width(p[i])
  {
    var idx := IndexOf(p, site);
    if i < idx {
      SlotIncreases(p, i, idx);
    } else {
      SlotIncreases(p, idx, i);
    }
  }

  // ---------------------------------------------------------------- references

  lemma {:induction false} CountZero(p: seq<Insn>, name: string, n: nat)
    requires n <= |p| && CountSym(p, name, n) == 0
    ensures forall a | 0 <= a < n :: p[a].sym != name
    decreases n
  {
    if n > 0 { CountZero(p, name, n - 1); }
  }

  lemma {:induction false} CountOne(p: seq<Insn>, name: string, n: nat)
    requires n <= |p| && CountSym(p, name, n) == 1
    ensures exists a | 0 <= a < n :: p[a].sym == name && forall b | 0 <= b < n && p[b].sym == name :: b == a
    decreases n
  {
    if p[n - 1].sym == name {
      CountZero(p, name, n - 1);
    } else {
      CountOne(p, name, n - 1);
    }
  }

  /** An index of the result is an original instruction, an inserted one, or part of the hook. */
  lemma {:induction false} WovenIndex(p: seq<Insn>, req: Request, maps: set<string>, q: seq<Insn>, b: nat)
    requires Woven(p, req, maps, q) && b < |q|
    ensures (exists i | 0 <= i < |p| :: b == Moved(At(p, req), i)) || q[b].sym in {"", req.hook}
  {
    var idx := At(p, req);
    if b <= idx {
      assert b == Moved(idx, b);
    } else if b <= idx + INSERT_SLOTS {
      WovenInsertion(p, req, maps, q, b - idx - 1);
    } else if b < |p| + INSERT_SLOTS {
      assert b == Moved(idx, b - INSERT_SLOTS);
    } else {
      WovenHook(p, req, maps, q, b - |p| - INSERT_SLOTS);
    }
  }

  /** A symbol of the original resolves to the same instruction afterwards. */
  lemma {:induction false} SymbolMoves(p: seq<Insn>, req: Request, maps: set<string>, q: seq<Insn>, name: string)
    requires Woven(p, req, maps, q) && CountSym(p, name, |p|) == 1 && name != "" && name != req.hook
    ensures 0 <= FindSym(p, name) && FindSym(q, name) == Moved(At(p, req), FindSym(p, name))
  {
    CountOne(p, name, |p|);
    var a := FindSym(p, name);
    WovenInsn(p, req, maps, q, a);
    var b := FindSym(q, name);
    WovenIndex(p, req, maps, q, b);
    var i :| 0 <= i < |p| && b == Moved(At(p, req), i);
    WovenInsn(p, req, maps, q, i);
  }

  /** The inserted call reaches the generated hook. */
  lemma {:induction false} HookResolves(p: seq<Insn>, req: Request, maps: set<string>, q: seq<Insn>)
    requires Woven(p, req, maps, q)
    ensures FindSym(q, req.hook) == |p| + INSERT_SLOTS
  {
    assert Unsealed(0);
    WovenHook(p, req, maps, q, 0);
    WovenHook(p, req, maps, q, 1);
    WovenHook(p, req, maps, q, 2);
    var b := FindSym(q, req.hook);
    if b < |p| + INSERT_SLOTS {
      var idx := At(p, req);
      if idx < b <= idx + INSERT_SLOTS {
        WovenInsertion(p, req, maps, q, b - idx - 1);
      } else {
        WovenInsn(p, req, maps, q, if b <= idx then b else b - INSERT_SLOTS);
      }
    }
  }

  predicate IsEdge(ins: Insn) {
    ins.op.Goto? || ins.op.Branch? || ins.op.CallFunc? || ins.op.LoadFunc?
  }

  lemma {:induction false} SymbolicReference(p: seq<Insn>, req: Request, maps: set<string>, q: seq<Insn>, i: nat)
    requires Woven(p, req, maps, q) && i < |p| && IsEdge(p[i]) && p[i].ref != ""
    ensures IsFuncRef(p[i]) && CountSym(p, p[i].ref, |p|) == 1 && p[i].ref != req.hook
  {
    assert Unsealed(0);
    assert Relocated(p, req.site, i).Ok?;
  }

  lemma {:induction false} NumericReference(p: seq<Insn>, req: Request, maps: set<string>, q: seq<Insn>, i: nat)
    requires Woven(p, req, maps, q) && i < |p| && IsEdge(p[i]) && p[i].ref == ""
    ensures IndexOf(p, Target(p, Slot(p, i), p[i])) >= 0
    ensures Relocated(p, req.site, i) == RelocateOffset(p[i], Mapped(req.site, Slot(p, i)),
      Mapped(req.site, Target(p, Slot(p, i), p[i])), IsFuncRef(p[i]))
    ensures Relocated(p, req.site, i).Ok?
  {
    assert Relocated(p, req.site, i).Ok? by {
      assert Unsealed(0);
    }
    RelocatedEdge(p, req.site, i);
  }

  lemma {:induction false} RelocatedEdge(p: seq<Insn>, site: int, i: nat)
    requires i < |p| && IsEdge(p[i]) && p[i].ref == "" && Relocated(p, site, i).Ok?
    ensures IndexOf(p, Target(p, Slot(p, i), p[i])) >= 0
    ensures Relocated(p, site, i)
         == RelocateOffset(p[i], Mapped(site, Slot(p, i)), Mapped(site, Target(p, Slot(p, i), p[i])), IsFuncRef(p[i]))
  {
  }

  /** Relocation is right: every branch, call and callback reference of the result leads to the
      mapped slot of where the original led, and the original led to an instruction. */
  lemma {:induction false} ReferencesLand(p: seq<Insn>, req: Request, maps: set<string>, q: seq<Insn>, i: nat)
    requires Woven(p, req, maps, q) && i < |p| && IsEdge(p[i])
    ensures IndexOf(p, Target(p, Slot(p, i), p[i])) >= 0
    ensures Moved(At(p, req), i) < |q|
    ensures Target(q, Mapped(req.site, Slot(p, i)), q[Moved(At(p, req), i)])
         == Mapped(req.site, Target(p, Slot(p, i), p[i]))
  {
    WovenInsn(p, req, maps, q, i);
    if p[i].ref != "" {
      SymbolicReference(p, req, maps, q, i);
      SymbolMoves(p, req, maps, q, p[i].ref);
      var a := FindSym(p, p[i].ref);
      BoundaryMoves(p, req, maps, q, a);
      IndexOfSlot(p, a);
    } else {
      NumericReference(p, req, maps, q, i);
    }
  }

  // ---------------------------------------------------------------- steps away from the site

  ghost function MapCall(site: int, c: Saved): Saved {
    c.(ret := Mapped(site, c.ret))
  }

  ghost function MapCalls(site: int, calls: seq<Saved>): (m: seq<Saved>)
    ensures |m| == |calls|
    ensures forall i | 0 <= i < |calls| :: m[i] == MapCall(site, calls[i])
  {
    seq(|calls|, i requires 0 <= i < |calls| => MapCall(site, calls[i]))
  }

  ghost function MapState(site: int, s: State): State {
    s.(pc := Mapped(site, s.pc), calls := MapCalls(site, s.calls))
  }

  ghost function MapOutcome(site: int, o: Outcome): Outcome {
    if o.Running? then Running(MapState(site, o.s)) else o
  }

  /** The loader gives corresponding functions of both programs the same address. */
  ghost predicate SameLayout(site: int, L: Loaded, M: Loaded) {
    (forall t: int :: M.place(Mapped(site, t)) == L.place(t)) && (forall a: int :: M.at(a) == Mapped(site, L.at(a)))
  }

  ghost predicate Rewritten(req: Request, maps: set<string>, L: Loaded, M: Loaded) {
    Woven(L.insns, req, maps, M.insns) && SameLayout(req.site, L, M)
  }

  lemma {:induction false} MapPush(site: int, calls: seq<Saved>, c: Saved)
    ensures MapCalls(site, calls + [c]) == MapCalls(site, calls) + [MapCall(site, c)]
  {
  }

  lemma {:induction false} MapPop(site: int, calls: seq<Saved>)
    requires calls != []
    ensures MapCalls(site, calls)[..|calls| - 1] == MapCalls(site, calls[..|calls| - 1])
  {
  }

  lemma {:induction false} CallbackMaps(site: int, L: Loaded, M: Loaded, c: Saved, calls: seq<Saved>, out: ExtOut, log: seq<ExtCall>)
    requires SameLayout(site, L, M) && out.Invoke?
    ensures StartCallback(M, MapCall(site, c), MapCalls(site, calls), out, log)
         == MapOutcome(site, StartCallback(L, c, calls, out, log))
  {
    MapPush(site, calls, c.(resume := Token(out.token)));
  }

  lemma {:induction false} ReturnMaps(site: int, env: Env, L: Loaded, M: Loaded, calls: seq<Saved>, r0: Value, mem: Memory, log: seq<ExtCall>)
    requires SameLayout(site, L, M)
    ensures Return(env, M, MapCalls(site, calls), r0, mem, log) == MapOutcome(site, Return(env, L, calls, r0, mem, log))
  {
    if calls != [] {
      MapPop(site, calls);
      var c, rest := calls[|calls| - 1], calls[..|calls| - 1];
      if c.resume.Token? {
        match env.resume(c.resume.k, r0, mem) {
          case Done(_, _) =>
          case Leave(_, _) =>
          case Invoke(code, args, m, token) => CallbackMaps(site, L, M, c, rest, Invoke(code, args, m, token), log);
        }
      }
    }
  }

  lemma {:induction false} ExternalMaps(site: int, env: Env, L: Loaded, M: Loaded, s: State, ins: Insn)
    requires SameLayout(site, L, M) && |s.regs| == 11 && Mapped(site, s.pc + 1) == Mapped(site, s.pc) + 1
    ensures External(env, M, MapState(site, s), ins) == MapOutcome(site, External(env, L, s, ins))
  {
    var call := CallOut(env, ins, s.regs);
    var log := s.log + [call];
    var c := SaveFrame(s, s.pc + 1, Machine.Plain);
    assert SaveFrame(MapState(site, s), Mapped(site, s.pc) + 1, Machine.Plain) == MapCall(site, c);
    match env.ext(call, s.mem) {
      case Done(_, _) =>
      case Leave(r0, m) => ReturnMaps(site, env, L, M, s.calls, r0, m, log);
      case Invoke(code, args, m, token) => CallbackMaps(site, L, M, c, s.calls, Invoke(code, args, m, token), log);
    }
  }

  /** An instruction with no edge, moved, does the same. */
  lemma {:induction false} PlainMaps(site: int, env: Env, L: Loaded, M: Loaded, s: State, ins: Insn)
    requires |s.regs| == 11 && Mapped(site, s.pc + Width(ins)) == Mapped(site, s.pc) + Width(ins)
    requires ins.op.Alu? || ins.op.LoadImm64? || ins.op.Load? || ins.op.StoreImm? || ins.op.Store? || ins.op.Atomic?
    ensures Exec(env, M, MapState(site, s), ins) == MapOutcome(site, Exec(env, L, s, ins))
  {
  }

  /** An instruction with an edge that lands on the mapped target does the same. */
  lemma {:induction false} EdgeMaps(site: int, env: Env, L: Loaded, M: Loaded, s: State, ins: Insn, moved: Insn)
    requires SameLayout(site, L, M) && |s.regs| == 11
    requires Mapped(site, s.pc + Width(ins)) == Mapped(site, s.pc) + Width(ins)
    requires IsEdge(ins) && moved.op == ins.op && moved.dst == ins.dst && moved.src == ins.src
    requires ins.op.Branch? ==> moved.imm == ins.imm
    requires Target(M.insns, Mapped(site, s.pc), moved) == Mapped(site, Target(L.insns, s.pc, ins))
    ensures Exec(env, M, MapState(site, s), moved) == MapOutcome(site, Exec(env, L, s, ins))
  {
    if ins.op.CallFunc? {
      MapPush(site, s.calls, SaveFrame(s, s.pc + 1, Machine.Plain));
    }
  }

  /** Away from the site the result, started at the mapped slot, does in one step exactly what the
      original does, and continues at the mapped slot of where the original continues. */
  lemma {:induction false} OtherMaps(site: int, env: Env, L: Loaded, M: Loaded, s: State, ins: Insn)
    requires SameLayout(site, L, M) && |s.regs| == 11
    requires Mapped(site, s.pc + Width(ins)) == Mapped(site, s.pc) + Width(ins)
    requires !IsEdge(ins) && !ins.op.GotoLong?
    ensures Exec(env, M, MapState(site, s), ins) == MapOutcome(site, Exec(env, L, s, ins))
  {
    if ins.op.LoadLegacy? || ins.op.CallHelper? || ins.op.CallKfunc? {
      ExternalMaps(site, env, L, M, s, ins);
    } else if ins.op.Exit? {
      ReturnMaps(site, env, L, M, s.calls, s.regs[0], s.mem, s.log);
    } else if !ins.op.GotoIndirect? {
      PlainMaps(site, env, L, M, s, ins);
    }
  }

  lemma {:induction false} StepMaps(req: Request, maps: set<string>, env: Env, L: Loaded, M: Loaded, s: State)
    requires Rewritten(req, maps, L, M) && IndexOf(L.insns, s.pc) >= 0 && s.pc != req.site
    ensures Step(env, M, MapState(req.site, s)) == MapOutcome(req.site, Step(env, L, s))
  {
    var p, q, site := L.insns, M.insns, req.site;
    var i := IndexOf(p, s.pc);
    BoundaryMoves(p, req, maps, q, i);
    CarriesAt(req, maps, L, M, i);
    if |s.regs| == 11 {
      ExecMaps(site, env, L, M, s, p[i], q[Moved(At(p, req), i)]);
    }
  }

  /** `moved` is what the rewrite makes of `ins` at `pc`: the same instruction, its target moved with the code. */
  ghost predicate Carries(site: int, L: Loaded, M: Loaded, pc: int, ins: Insn, moved: Insn) {
    Mapped(site, pc + Width(ins)) == Mapped(site, pc) + Width(ins) &&
    if IsEdge(ins) then
      moved.op == ins.op && moved.dst == ins.dst && moved.src == ins.src && (ins.op.Branch? ==> moved.imm == ins.imm) &&
      Target(M.insns, Mapped(site, pc), moved) == Mapped(site, Target(L.insns, pc, ins))
    else moved == ins && !ins.op.GotoLong?
  }

  lemma {:induction false} CarriesAt(req: Request, maps: set<string>, L: Loaded, M: Loaded, i: nat)
    requires Woven(L.insns, req, maps, M.insns) && i < |L.insns| && Slot(L.insns, i) != req.site
    ensures 0 <= Moved(At(L.insns, req), i) < |M.insns|
    ensures Carries(req.site, L, M, Slot(L.insns, i), L.insns[i], M.insns[Moved(At(L.insns, req), i)])
  {
    var p, q := L.insns, M.insns;
    WovenInsn(p, req, maps, q, i);
    NextMoves(p, req.site, i);
    if IsEdge(p[i]) {
      ReferencesLand(p, req, maps, q, i);
    }
  }

  lemma {:induction false} ExecMaps(site: int, env: Env, L: Loaded, M: Loaded, s: State, ins: Insn, moved: Insn)
    requires SameLayout(site, L, M) && |s.regs| == 11 && Carries(site, L, M, s.pc, ins, moved)
    ensures Exec(env, M, MapState(site, s), moved) == MapOutcome(site, Exec(env, L, s, ins))
  {
    if IsEdge(ins) {
      EdgeMaps(site, env, L, M, s, ins, moved);
    } else {
      OtherMaps(site, env, L, M, s, ins);
    }
  }

  // ---------------------------------------------------------------- the site

  lemma {:induction false} SpillFills(env: Env, m: Memory, r: Region, a: int, b: int, v: Value, w: Value)
    requires b + 8 == a
    ensures var m' := StoreBytes(StoreBytes(m, r, a, 8, v), r, b, 8, w);
      LoadBytes(env, m', r, a, 8, false) == v && LoadBytes(env, m', r, b, 8, false) == w
  {
    var m' := StoreBytes(StoreBytes(m, r, a, 8, v), r, b, 8, w);
    LoadsWhole(env, m', r, a, v);
    LoadsWhole(env, m', r, b, w);
  }

  lemma {:induction false} LoadsWhole(env: Env, m: Memory, r: Region, at: int, v: Value)
    requires forall i | at <= i < at + 8 :: m(r, i) == Frag(v, i - at)
    ensures LoadBytes(env, m, r, at, 8, false) == v
  {
    var s := Bytes(m, r, at, 8);
    assert forall i | 0 <= i < 8 :: s[i] == Frag(v, i);
  }

  /** The memory after the two spills. */
  ghost function Spilled(req: Request, m: Memory, depth: nat, r0: Value, v: Value): Memory
    requires RequestOk(req) && SpillSlots(req.lowest).Ok?
  {
    var spill := SpillSlots(req.lowest).value;
    StoreBytes(StoreBytes(m, Frame(depth), spill.0, 8, r0), Frame(depth), spill.1, 8, v)
  }

  /** Registers after the inserted sequence: R0 and R2 restored, R1 and R3-R5 unreadable. */
  ghost function Restored(regs: seq<Value>, v: Value): seq<Value>
    requires |regs| == 11
  {
    [regs[0], Undef, v, Undef, Undef, Undef, regs[6], regs[7], regs[8], regs[9], regs[10]]
  }

  /** The call site as it lies in the result: the load, the six inserted instructions, the hook. */
  ghost function SiteCode(p: seq<Insn>, req: Request): Code
    requires RequestOk(req) && SiteOk(p, req) && SpillSlots(req.lowest).Ok?
  {
    var spill := SpillSlots(req.lowest).value;
    var ins := Insertion(req, spill.0, spill.1);
    map[req.site := p[At(p, req)],
        req.site + 1 := ins[0], req.site + 2 := ins[1], req.site + 3 := ins[2],
        req.site + 4 := ins[3], req.site + 5 := ins[4], req.site + 6 := ins[5],
        HookSlot(p) := Hook(req)[0], HookSlot(p) + 1 := Hook(req)[1], HookSlot(p) + 2 := Hook(req)[2]]
  }

  lemma {:induction false} InsertedAt(p: seq<Insn>, req: Request, maps: set<string>, q: seq<Insn>, k: nat)
    requires Woven(p, req, maps, q) && k < INSERT_SLOTS
    ensures var spill := SpillSlots(req.lowest).value;
      AtInsn(q, req.site + 1 + k, Insertion(req, spill.0, spill.1)[k])
  {
    WovenInsertion(p, req, maps, q, k);
    SlotsInserted(p, req, maps, q, k);
  }

  lemma {:induction false} HookAt(p: seq<Insn>, req: Request, maps: set<string>, q: seq<Insn>, k: nat)
    requires Woven(p, req, maps, q) && k < 3
    ensures AtInsn(q, HookSlot(p) + k, Hook(req)[k])
  {
    WovenHook(p, req, maps, q, k);
    SlotsHook(p, req, maps, q, k);
  }

  lemma {:induction false} SiteAt(p: seq<Insn>, req: Request, maps: set<string>, q: seq<Insn>)
    requires Woven(p, req, maps, q)
    ensures 0 <= At(p, req) && AtInsn(q, req.site, p[At(p, req)])
  {
    BoundaryMoves(p, req, maps, q, At(p, req));
    WovenInsn(p, req, maps, q, At(p, req));
  }

  lemma {:induction false} HookTarget(p: seq<Insn>, req: Request, maps: set<string>, q: seq<Insn>)
    requires Woven(p, req, maps, q)
    ensures var spill := SpillSlots(req.lowest).value;
      Target(q, req.site + 4, Insertion(req, spill.0, spill.1)[3]) == HookSlot(p)
  {
    assert Unsealed(0);
    HookResolves(p, req, maps, q);
    SlotsHook(p, req, maps, q, 0);
  }

  lemma {:induction false} SiteCodeHolds(p: seq<Insn>, req: Request, maps: set<string>, q: seq<Insn>)
    requires Woven(p, req, maps, q)
    ensures Holds(q, SiteCode(p, req))
  {
    var code := SiteCode(p, req);
    SlotIncreases(p, At(p, req), |p|);
    forall pc | pc in code
      ensures AtInsn(q, pc, code[pc])
    {
      if pc >= HookSlot(p) {
        HookAt(p, req, maps, q, pc - HookSlot(p));
      } else if pc == req.site {
        SiteAt(p, req, maps, q);
      } else {
        InsertedAt(p, req, maps, q, pc - req.site - 1);
      }
    }
  }

  ghost function HookSlot(p: seq<Insn>): int {
    Slot(p, |p|) + INSERT_SLOTS
  }

  /** The state in which the hook starts: the site in R1, the observed value in R2. */
  ghost function AtHook(p: seq<Insn>, req: Request, t: State, v: Value): State
    requires RequestOk(req) && SpillSlots(req.lowest).Ok? && WellFormed(t)
  {
    State(HookSlot(p), EntryRegs(Num(req.site), v, t.regs[3], t.regs[4], t.regs[5], |t.calls| + 1),
          Spilled(req, t.mem, |t.calls|, t.regs[0], v),
          t.calls + [SaveFrame(t, req.site + 5, Machine.Plain)], t.log)
  }

  ghost function AfterSite(req: Request, t: State, v: Value): State
    requires RequestOk(req) && SpillSlots(req.lowest).Ok? && WellFormed(t)
  {
    State(Mapped(req.site, req.site + 1), Restored(t.regs, v), Spilled(req, t.mem, |t.calls|, t.regs[0], v), t.calls, t.log)
  }

  /** What the steps of the inserted sequence rely on. */
  ghost predicate Laid(p: seq<Insn>, req: Request, env: Env, M: Loaded, f: State -> Outcome) {
    RequestOk(req) && SiteOk(p, req) && SpillSlots(req.lowest).Ok? && HookSlot(p) > req.site + 6 &&
    forall k: int {:trigger Unsealed(k)} :: Unsealed(k) ==>
      Executes(f, env, M, SiteCode(p, req)) &&
      Target(M.insns, req.site + 4, Splice.Plain(CallFunc, 0, 1, 0, -1, req.hook)) == HookSlot(p)
  }

  lemma {:induction false} SpillStep(p: seq<Insn>, req: Request, env: Env, M: Loaded, f: State -> Outcome, t: State, k: nat)
    requires Laid(p, req, env, M, f) && WellFormed(t) && k < 2 && t.pc == req.site + 1 + k
    ensures var spill := SpillSlots(req.lowest).value;
      var at, r := if k == 0 then spill.0 else spill.1, if k == 0 then 0 else 2;
      f(t) == Running(t.(pc := t.pc + 1, mem := StoreBytes(t.mem, Frame(|t.calls|), at, 8, t.regs[r])))
  {
    assert Unsealed(0) && Focus(t);
  }

  lemma {:induction false} FillStep(p: seq<Insn>, req: Request, env: Env, M: Loaded, f: State -> Outcome, t: State, k: nat)
    requires Laid(p, req, env, M, f) && WellFormed(t) && k < 2 && t.pc == req.site + 5 + k
    ensures var spill := SpillSlots(req.lowest).value;
      var at, r: Reg := if k == 0 then spill.0 else spill.1, if k == 0 then 0 else 2;
      f(t) == Running(t.(pc := t.pc + 1, regs := t.regs[r := LoadBytes(env, t.mem, Frame(|t.calls|), at, 8, false)]))
  {
    assert Unsealed(0) && Focus(t);
  }

  lemma {:induction false} SiteNumberStep(p: seq<Insn>, req: Request, env: Env, M: Loaded, f: State -> Outcome, t: State)
    requires Laid(p, req, env, M, f) && WellFormed(t) && t.pc == req.site + 3
    ensures f(t) == Running(t.(pc := t.pc + 1, regs := t.regs[1 := Num(req.site)]))
  {
    assert Unsealed(0) && Focus(t);
    assert Low32(AsInt32(req.site)) == req.site;
  }

  lemma {:induction false} HookCallStep(p: seq<Insn>, req: Request, env: Env, M: Loaded, f: State -> Outcome, t: State)
    requires Laid(p, req, env, M, f) && WellFormed(t) && t.pc == req.site + 4
    ensures f(t) ==
      Running(State(HookSlot(p), EntryRegs(t.regs[1], t.regs[2], t.regs[3], t.regs[4], t.regs[5], |t.calls| + 1),
                    t.mem, t.calls + [SaveFrame(t, req.site + 5, Machine.Plain)], t.log))
  {
    assert Unsealed(0) && Focus(t);
  }

  lemma {:induction false} HookAluStep(p: seq<Insn>, req: Request, env: Env, M: Loaded, f: State -> Outcome, t: State, k: nat) returns (v: Value)
    requires Laid(p, req, env, M, f) && |t.regs| == 11 && k < 2 && t.pc == HookSlot(p) + k
    ensures f(t) == Running(t.(pc := t.pc + 1, regs := t.regs[0 := v]))
  {
    assert Unsealed(0) && Focus(t);
    var ins := Hook(req)[k];
    v := AluValue(env, ins.op, ins.off, t.regs[0], Operand(ins, ins.op.fromReg, t.regs));
  }

  lemma {:induction false} HookExitStep(p: seq<Insn>, req: Request, env: Env, M: Loaded, f: State -> Outcome, t: State)
    requires Laid(p, req, env, M, f) && |t.regs| == 11 && t.pc == HookSlot(p) + 2
    ensures f(t) == Return(env, M, t.calls, t.regs[0], t.mem, t.log)
  {
    assert Unsealed(0) && Focus(t);
  }

  /** Spill, spill, site number, call: four steps from the loaded value to the hook. */
  lemma {:induction false} ReachesHook(p: seq<Insn>, req: Request, env: Env, M: Loaded, f: State -> Outcome, t: State)
    requires Laid(p, req, env, M, f) && WellFormed(t) && t.pc == req.site + 1
    ensures Iterate(f, t, 4) == Running(AtHook(p, req, t, t.regs[2]))
  {
    SpillStep(p, req, env, M, f, t, 0);
    var t1 := f(t).s;
    SpillStep(p, req, env, M, f, t1, 1);
    var t2 := f(t1).s;
    SiteNumberStep(p, req, env, M, f, t2);
    var t3 := f(t2).s;
    HookCallStep(p, req, env, M, f, t3);
    IterateStep(f, t3, f(t3).s, 0);
    IterateStep(f, t2, t3, 1);
    IterateStep(f, t1, t2, 2);
    IterateStep(f, t, t1, 3);
  }

  /** The hook runs and returns: three steps, memory untouched. */
  lemma {:induction false} HookReturns(p: seq<Insn>, req: Request, env: Env, M: Loaded, f: State -> Outcome, t: State) returns (v: Value)
    requires Laid(p, req, env, M, f) && |t.regs| == 11 && t.pc == HookSlot(p)
    requires t.calls != [] && t.calls[|t.calls| - 1].resume.Plain?
    ensures var c, rest := t.calls[|t.calls| - 1], t.calls[..|t.calls| - 1];
      Iterate(f, t, 3) == Running(State(c.ret, ReturnRegs(v, c, |rest|), t.mem, rest, t.log))
  {
    var w := HookAluStep(p, req, env, M, f, t, 0);
    var t1 := f(t).s;
    v := HookAluStep(p, req, env, M, f, t1, 1);
    var t2 := f(t1).s;
    HookExitStep(p, req, env, M, f, t2);
    IterateStep(f, t2, f(t2).s, 0);
    IterateStep(f, t1, t2, 1);
    IterateStep(f, t, t1, 2);
  }

  /** After the audited load the inserted sequence shows the hook the site and the loaded value, then
      leaves everything but R1, R3-R5 and its own two slots as it found it. */
  lemma {:induction false} InsertionRuns(p: seq<Insn>, req: Request, env: Env, M: Loaded, f: State -> Outcome, t: State)
    requires Laid(p, req, env, M, f) && WellFormed(t) && t.pc == req.site + 1
    ensures Iterate(f, t, 4) == Running(AtHook(p, req, t, t.regs[2]))
    ensures Iterate(f, t, 9) == Running(AfterSite(req, t, t.regs[2]))
  {
    var v := t.regs[2];
    ReachesHook(p, req, env, M, f, t);
    var h := AtHook(p, req, t, v);
    var w := HookReturns(p, req, env, M, f, h);
    assert h.calls[..|h.calls| - 1] == t.calls;
    var b := Iterate(f, h, 3).s;
    var spill := SpillSlots(req.lowest).value;
    SpillFills(env, t.mem, Frame(|t.calls|), spill.0, spill.1, t.regs[0], v);
    FillStep(p, req, env, M, f, b, 0);
    var b1 := f(b).s;
    FillStep(p, req, env, M, f, b1, 1);
    assert f(b1).s.regs == Restored(t.regs, v);
    IterateStep(f, b1, f(b1).s, 0);
    IterateStep(f, b, b1, 1);
    IteratePlus(f, h, 3, 2);
    IteratePlus(f, t, 4, 5);
  }

  lemma {:induction false} SpillsStayBelow(req: Request, m: Memory, depth: nat, r0: Value, v: Value)
    requires RequestOk(req) && SpillSlots(req.lowest).Ok?
    ensures SameAbove(m, Spilled(req, m, depth, r0, v), req.lowest)
  {
  }

  // ---------------------------------------------------------------- simulation

  /** The offline checker's verdict on the registers the shape test says nothing of: R3-R5 are dead after the load. */
  ghost predicate ArgsDead(p: seq<Insn>, req: Request, live: Sets) {
    |live| == |p| + 1 && 0 <= At(p, req) < |p| && live[At(p, req) + 1] !! {3, 4, 5}
  }

  /** The instruction after an accepted site writes R1 without reading it, so R1 is dead there. */
  lemma {:induction false} SiteRegDead(p: seq<Insn>, arity: int -> int, req: Request, live: Sets)
    requires SiteOk(p, req) && EdgesResolve(p) && IsFixpoint(Equations(p, arity), live) && ArgsDead(p, req, live)
    ensures SiteDead(p, req, live)
  {
    var i := At(p, req) + 1;
    assert Solves(Equations(p, arity), live, i);
    assert 1 in Writes(p[i]) && 1 !in Reads(arity, p[i]);
  }

  /** All registers the call clobbers are dead after the load. */
  ghost predicate SiteDead(p: seq<Insn>, req: Request, live: Sets) {
    |live| == |p| + 1 && 0 <= At(p, req) < |p| && live[At(p, req) + 1] !! {1, 3, 4, 5}
  }

  ghost predicate Checked(req: Request, maps: set<string>, env: Env, L: Loaded, M: Loaded, live: Sets) {
    Rewritten(req, maps, L, M) && EdgesResolve(L.insns) && IsFixpoint(Equations(L.insns, env.arity), live) &&
    ArgsDead(L.insns, req, live)
  }

  /** Of the registers the inserted call clobbers, those that are dead at `pc`: all that may differ. */
  ghost function Clobbered(p: seq<Insn>, live: Sets, pc: int): set<Reg>
    requires |live| == |p| + 1
  {
    Dead(p, live, pc) * {1, 3, 4, 5}
  }

  /** The original in state `s` and the result in state `t` are at corresponding points: equal R0, R2, R6-R10, live
      R1 and R3-R5, frames, helper calls so far, and memory from the audited bound up. */
  ghost predicate Sim(req: Request, p: seq<Insn>, live: Sets, s: State, t: State)
    requires |live| == |p| + 1
  {
    WellFormed(s) && t.pc == Mapped(req.site, s.pc) && t.calls == MapCalls(req.site, s.calls) && t.log == s.log &&
    SameAbove(s.mem, t.mem, req.lowest) && AgreeExcept(s.regs, t.regs, Clobbered(p, live, s.pc))
  }

  ghost predicate SimOutcome(req: Request, p: seq<Insn>, live: Sets, o: Outcome, q: Outcome)
    requires |live| == |p| + 1
  {
    match o
    case Running(s) => q.Running? && Sim(req, p, live, s, q.s)
    case Halted(r, m, log) => q.Halted? && q.result == r && q.log == log && SameAbove(m, q.mem, req.lowest)
    case Stuck => false
  }

  /** What the caller's audit certifies about the state a step starts from. */
  ghost predicate Audited(env: Env, p: seq<Insn>, s: State, lowest: int) {
    |s.regs| == 11 && (IndexOf(p, s.pc) >= 0 ==> StaysAbove(env, s, p[IndexOf(p, s.pc)], lowest))
  }

  lemma {:induction false} OtherStep(req: Request, maps: set<string>, env: Env, L: Loaded, M: Loaded, live: Sets, s: State, t: State)
    requires Checked(req, maps, env, L, M, live) && Sim(req, L.insns, live, s, t)
    requires Audited(env, L.insns, s, req.lowest) && s.pc != req.site && !Step(env, L, s).Stuck?
    ensures SimOutcome(req, L.insns, live, Step(env, L, s), Step(env, M, t))
  {
    var u := s.(mem := t.mem);
    StepShadows(env, L, s, u, req.lowest);
    var w := u.(regs := t.regs);
    DeadStep(env, L, live, u, w, Clobbered(L.insns, live, s.pc));
    StepMaps(req, maps, env, L, M, w);
    assert MapState(req.site, w) == t;
    if Step(env, L, s).Running? {
      StepKeepsFrame(env, L, s);
    }
  }

  lemma {:induction false} SiteLoad(p: seq<Insn>, req: Request, env: Env, L: Loaded, f: State -> Outcome, code: Code, s: State)
    requires SiteOk(p, req) && Executes(f, env, L, code) && s.pc in code && code[s.pc] == p[At(p, req)] && |s.regs| == 11
    ensures f(s) ==
      if s.regs[0].Ptr?
      then Running(s.(pc := s.pc + 1, regs := s.regs[2 := LoadBytes(env, s.mem, s.regs[0].region, s.regs[0].off + req.off, 4, false)]))
      else Stuck
  {
    assert Focus(s);
  }

  ghost function LoadedState(s: State, v: Value): State
    requires |s.regs| == 11
  {
    s.(pc := s.pc + 1, regs := s.regs[2 := v])
  }

  /** At corresponding states the audited load produces the same value on both sides. */
  lemma {:induction false} SiteLoads(req: Request, env: Env, L: Loaded, M: Loaded, f: State -> Outcome, g: State -> Outcome, s: State, t: State)
    returns (v: Value)
    requires Laid(L.insns, req, env, M, g) && Executes(f, env, L, map[req.site := L.insns[At(L.insns, req)]])
    requires WellFormed(s) && WellFormed(t) && s.pc == t.pc == req.site && !f(s).Stuck?
    requires forall r: Reg | r == 0 || r >= 6 :: s.regs[r] == t.regs[r]
    requires SameAbove(s.mem, t.mem, req.lowest)
    requires s.regs[0].Ptr? ==> Above(s.regs[0].region, s.regs[0].off + req.off, req.lowest)
    ensures f(s) == Running(LoadedState(s, v))
    ensures g(t) == Running(LoadedState(t, v))
  {
    var p := L.insns;
    var a := s.regs[0];
    assert Unsealed(0);
    SiteLoad(p, req, env, L, f, map[req.site := p[At(p, req)]], s);
    SiteLoad(p, req, env, M, g, SiteCode(p, req), t);
    LoadsAgree(env, s.mem, t.mem, a.region, a.off + req.off, 4, false, req.lowest);
    v := LoadBytes(env, s.mem, a.region, a.off + req.off, 4, false);
  }

  lemma {:induction false} SiteRun(p: seq<Insn>, req: Request, env: Env, M: Loaded, g: State -> Outcome, t: State, t1: State)
    requires Laid(p, req, env, M, g) && WellFormed(t1) && t1.pc == req.site + 1 && g(t) == Running(t1)
    ensures Iterate(g, t, 5) == Running(AtHook(p, req, t1, t1.regs[2]))
    ensures Iterate(g, t, 10) == Running(AfterSite(req, t1, t1.regs[2]))
  {
    InsertionRuns(p, req, env, M, g, t1);
    IterateStep(g, t, t1, 9);
    IterateStep(g, t, t1, 4);
  }

  /** One original step at the site is ten of the result, and the fifth of them starts the hook with the
      loaded value. */
  lemma {:induction false} SiteStep(req: Request, env: Env, L: Loaded, M: Loaded, live: Sets,
                 f: State -> Outcome, g: State -> Outcome, s: State, t: State)
    requires Laid(L.insns, req, env, M, g) && SiteDead(L.insns, req, live)
    requires Executes(f, env, L, map[req.site := L.insns[At(L.insns, req)]])
    requires Sim(req, L.insns, live, s, t) && s.pc == req.site && !f(s).Stuck?
    requires s.regs[0].Ptr? ==> Above(s.regs[0].region, s.regs[0].off + req.off, req.lowest)
    ensures f(s).Running? && Iterate(g, t, 10).Running? && Iterate(g, t, 5).Running?
    ensures Sim(req, L.insns, live, f(s).s, Iterate(g, t, 10).s)
    ensures Observes(req, L.insns, f(s).s, Iterate(g, t, 5).s)
  {
    SimRegisters(req, L.insns, live, s, t);
    var v := SiteLoads(req, env, L, M, f, g, s, t);
    SiteRun(L.insns, req, env, M, g, t, LoadedState(t, v));
    SiteSim(req, L.insns, live, s, t, v);
    SiteObserves(req, L.insns, s, t, v);
  }

  lemma {:induction false} SimRegisters(req: Request, p: seq<Insn>, live: Sets, s: State, t: State)
    requires |live| == |p| + 1 && Sim(req, p, live, s, t)
    ensures WellFormed(t) && forall r: Reg | r == 0 || r == 2 || r >= 6 :: s.regs[r] == t.regs[r]
  {
  }

  lemma {:induction false} SiteSim(req: Request, p: seq<Insn>, live: Sets, s: State, t: State, v: Value)
    requires RequestOk(req) && SiteOk(p, req) && SpillSlots(req.lowest).Ok? && SiteDead(p, req, live)
    requires WellFormed(s) && WellFormed(t) && s.pc == t.pc == req.site
    requires t.calls == MapCalls(req.site, s.calls) && t.log == s.log && SameAbove(s.mem, t.mem, req.lowest)
    requires forall r: Reg | r == 0 || r >= 6 :: s.regs[r] == t.regs[r]
    ensures Sim(req, p, live, LoadedState(s, v), AfterSite(req, LoadedState(t, v), v))
  {
    SiteMemory(req, s, t, v);
    SiteAgree(req, p, live, s.regs, t.regs, v);
  }

  lemma {:induction false} SiteAgree(req: Request, p: seq<Insn>, live: Sets, a: seq<Value>, b: seq<Value>, v: Value)
    requires SiteOk(p, req) && SiteDead(p, req, live) && |a| == |b| == 11 && forall r: Reg | r == 0 || r >= 6 :: a[r] == b[r]
    ensures AgreeExcept(a[2 := v], Restored(b[2 := v], v), Clobbered(p, live, req.site + 1))
  {
    NextSlot(p, At(p, req));
    LoadedRegisters(a, b, v, a[2 := v], b[2 := v]);
    SiteRegisters(p, req, live, a[2 := v], b[2 := v]);
  }

  lemma {:induction false} LoadedRegisters(a: seq<Value>, b: seq<Value>, v: Value, a': seq<Value>, b': seq<Value>)
    requires |a| == |b| == 11 && a' == a[2 := v] && b' == b[2 := v] && forall r: Reg | r == 0 || r >= 6 :: a[r] == b[r]
    ensures forall r: Reg | r == 0 || r == 2 || r >= 6 :: a'[r] == b'[r]
  {
  }

  lemma {:induction false} SiteMemory(req: Request, s: State, t: State, v: Value)
    requires RequestOk(req) && SpillSlots(req.lowest).Ok? && WellFormed(t) && SameAbove(s.mem, t.mem, req.lowest)
    ensures SameAbove(s.mem, AfterSite(req, LoadedState(t, v), v).mem, req.lowest)
  {
    SpillsStayBelow(req, t.mem, |t.calls|, t.regs[0], v);
  }

  lemma {:induction false} SiteObserves(req: Request, p: seq<Insn>, s: State, t: State, v: Value)
    requires RequestOk(req) && SpillSlots(req.lowest).Ok? && WellFormed(s) && WellFormed(t)
    ensures Observes(req, p, LoadedState(s, v), AtHook(p, req, LoadedState(t, v), v))
  {
  }

  /** The hook starts with the site in R1 and, in R2, the value the original load produced. */
  ghost predicate Observes(req: Request, p: seq<Insn>, s: State, h: State) {
    |s.regs| == |h.regs| == 11 && h.pc == HookSlot(p) && h.regs[1] == Num(req.site) && h.regs[2] == s.regs[2]
  }

  lemma {:induction false} SiteRegisters(p: seq<Insn>, req: Request, live: Sets, a: seq<Value>, b: seq<Value>)
    requires SiteDead(p, req, live) && |a| == |b| == 11
    requires forall r: Reg | r == 0 || r == 2 || r >= 6 :: a[r] == b[r]
    requires IndexOf(p, req.site + 1) == At(p, req) + 1
    ensures AgreeExcept(a, Restored(b, b[2]), Clobbered(p, live, req.site + 1))
  {
  }

  // ---------------------------------------------------------------- whole runs

  /** The caller's audit, over the first `n` steps of the original. */
  ghost predicate AuditedRun(f: State -> Outcome, env: Env, p: seq<Insn>, s: State, n: nat, lowest: int) {
    forall k: nat | k < n :: Iterate(f, s, k).Running? ==> Audited(env, p, Iterate(f, s, k).s, lowest)
  }

  /** Steps of the result that match `n` of the original: ten for each visit of the site, else one. */
  ghost function MatchingSteps(f: State -> Outcome, site: int, s: State, n: nat): nat
    decreases n
  {
    if n == 0 then 0
    else
      (if s.pc == site then 10 else 1) + (if f(s).Running? then MatchingSteps(f, site, f(s).s, n - 1) else 0)
  }

  lemma {:induction false} CheckedLaid(req: Request, maps: set<string>, env: Env, L: Loaded, M: Loaded, g: State -> Outcome)
    requires Rewritten(req, maps, L, M) && Stepping(g, env, M)
    ensures Laid(L.insns, req, env, M, g)
  {
    SiteCodeHolds(L.insns, req, maps, M.insns);
    HoldsExecutes(g, env, M, SiteCode(L.insns, req));
    HookTarget(L.insns, req, maps, M.insns);
    SlotIncreases(L.insns, At(L.insns, req), |L.insns|);
  }

  lemma {:induction false} OriginalSite(req: Request, env: Env, L: Loaded, f: State -> Outcome, s: State)
    requires SiteOk(L.insns, req) && Stepping(f, env, L) && WellFormed(s) && s.pc == req.site
    requires Audited(env, L.insns, s, req.lowest)
    ensures Executes(f, env, L, map[req.site := L.insns[At(L.insns, req)]])
    ensures s.regs[0].Ptr? ==> Above(s.regs[0].region, s.regs[0].off + req.off, req.lowest)
  {
    var code: Code := map[req.site := L.insns[At(L.insns, req)]];
    assert Holds(L.insns, code);
    HoldsExecutes(f, env, L, code);
  }

  lemma {:induction false} OneStep(req: Request, maps: set<string>, env: Env, L: Loaded, M: Loaded, live: Sets,
                                   f: State -> Outcome, g: State -> Outcome, s: State, t: State)
    requires Checked(req, maps, env, L, M, live) && Stepping(f, env, L) && Stepping(g, env, M)
    requires Sim(req, L.insns, live, s, t) && Audited(env, L.insns, s, req.lowest) && !f(s).Stuck?
    ensures SimOutcome(req, L.insns, live, f(s), Iterate(g, t, if s.pc == req.site then 10 else 1))
  {
    if s.pc == req.site {
      CheckedLaid(req, maps, env, L, M, g);
      OriginalSite(req, env, L, f, s);
      SiteRegDead(L.insns, env.arity, req, live);
      SiteStep(req, env, L, M, live, f, g, s, t);
    } else {
      assert f(s) == Step(env, L, s) by { assert Focus(s); }
      assert g(t) == Step(env, M, t) by { assert Focus(t); }
      OtherStep(req, maps, env, L, M, live, s, t);
      if g(t).Running? {
        IterateStep(g, t, g(t).s, 0);
      }
    }
  }

  lemma {:induction false} AuditTail(f: State -> Outcome, env: Env, p: seq<Insn>, s: State, n: nat, lowest: int)
    requires n > 0 && AuditedRun(f, env, p, s, n, lowest) && f(s).Running?
    ensures Audited(env, p, s, lowest) && AuditedRun(f, env, p, f(s).s, n - 1, lowest)
  {
    assert Iterate(f, s, 0) == Running(s);
    forall k: nat | k < n - 1 && Iterate(f, f(s).s, k).Running?
      ensures Audited(env, p, Iterate(f, f(s).s, k).s, lowest)
    {
      IterateStep(f, s, f(s).s, k);
    }
  }

  lemma {:induction false} RunsTogether(req: Request, maps: set<string>, env: Env, L: Loaded, M: Loaded, live: Sets,
                                        f: State -> Outcome, g: State -> Outcome, s: State, t: State, n: nat)
    requires Checked(req, maps, env, L, M, live) && Stepping(f, env, L) && Stepping(g, env, M)
    requires Sim(req, L.insns, live, s, t) && AuditedRun(f, env, L.insns, s, n, req.lowest) && !Iterate(f, s, n).Stuck?
    ensures SimOutcome(req, L.insns, live, Iterate(f, s, n), Iterate(g, t, MatchingSteps(f, req.site, s, n)))
    decreases n
  {
    if n > 0 {
      assert Iterate(f, s, 0) == Running(s);
      OneStep(req, maps, env, L, M, live, f, g, s, t);
      var j := if s.pc == req.site then 10 else 1;
      if f(s).Running? {
        var s1, t1 := f(s).s, Iterate(g, t, j).s;
        AuditTail(f, env, L.insns, s, n, req.lowest);
        RunsTogether(req, maps, env, L, M, live, f, g, s1, t1, n - 1);
        IteratePlus(g, t, j, MatchingSteps(f, req.site, s1, n - 1));
      }
    }
  }

  /** Splice simulation: every audited run of the original is matched by the result, state by state, to
      the same exit value, the same helper calls and the same memory from the audited bound up. */
  lemma {:induction false} SpliceSimulates(req: Request, maps: set<string>, env: Env, L: Loaded, M: Loaded, live: Sets,
                                           s: State, t: State, n: nat)
    requires Checked(req, maps, env, L, M, live) && Sim(req, L.insns, live, s, t)
    requires AuditedRun(Stepper(env, L), env, L.insns, s, n, req.lowest) && !Run(env, L, s, n).Stuck?
    ensures SimOutcome(req, L.insns, live, Run(env, L, s, n), Run(env, M, t, MatchingSteps(Stepper(env, L), req.site, s, n)))
  {
    StepperSteps(env, L);
    StepperSteps(env, M);
    RunsTogether(req, maps, env, L, M, live, Stepper(env, L), Stepper(env, M), s, t, n);
  }

  /** From the program entry: an original that ends, ends the same way after the rewrite. */
  lemma {:induction false} SameResult(req: Request, maps: set<string>, env: Env, L: Loaded, M: Loaded, live: Sets,
                                      ctx: Value, mem: Memory, n: nat)
    requires Checked(req, maps, env, L, M, live)
    requires var s := State(0, EntryRegs(ctx, Undef, Undef, Undef, Undef, 0), mem, [], []);
      AuditedRun(Stepper(env, L), env, L.insns, s, n, req.lowest) && Run(env, L, s, n).Halted?
    ensures var s := State(0, EntryRegs(ctx, Undef, Undef, Undef, Undef, 0), mem, [], []);
      var o := Run(env, L, s, n);
      var q := Run(env, M, s, MatchingSteps(Stepper(env, L), req.site, s, n));
      q.Halted? && q.result == o.result && q.log == o.log && SameAbove(o.mem, q.mem, req.lowest)
  {
    var s := State(0, EntryRegs(ctx, Undef, Undef, Undef, Undef, 0), mem, [], []);
    assert s.calls == MapCalls(req.site, s.calls);
    SpliceSimulates(req, maps, env, L, M, live, s, s, n);
  }
}
