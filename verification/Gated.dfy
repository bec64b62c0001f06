/** Gated (entry + exit) capture: the per-CPU hold that keeps an entry image until the exit decides.

    Every fentry and every fexit is one atomic step on its CPU's state, the way the emitted programs
    run.  Invocations nest, an fexit may be skipped, the depth may be restarted, and frame addresses
    are reused. */
module Gated {

  const MAX_HOLD_SLOTS := 10

  /** What an entry record will carry if the exit selects the packet. */
  datatype Image = Image(ts: nat, tag: nat, caplen: nat, origLen: nat, bytes: seq<int>)

  /** One hold slot. */
  datatype Hold = Hold(valid: bool, inv: nat, frame: int, packetSeq: nat, image: Image)

  datatype Stats = Stats(overwrite: nat, unpaired: nat, overflow: nat, resync: nat)

  /** A CPU's hold state: slot 0 carries the depth, the counters and the per-depth entry records. */
  datatype Cpu = Cpu(depth: nat, nextInv: nat, nextSeq: nat, enterJ: seq<nat>, enterI: seq<nat>, holds: seq<Hold>, stats: Stats)

  ghost predicate CpuOk(c: Cpu) {
    1 <= |c.holds| <= MAX_HOLD_SLOTS && |c.enterJ| == |c.enterI| == |c.holds|
  }

  // ---------------------------------------------------------------- what the two programs do

  /** Unsigned 64-bit age of an entry time. */
  function Age(now: nat, since: nat): int {
    (now - since) % 0x1_0000_0000_0000_0000
  }

  /** The innermost open depth was entered more than one jiffy ago. */
  predicate Stale(c: Cpu, now: nat)
    requires 1 <= |c.holds| && |c.enterJ| == |c.holds|
  {
    c.depth != 0 && Age(now, c.enterJ[if c.depth - 1 < |c.holds| then c.depth - 1 else |c.holds| - 1]) > 1
  }

  /** Taking the next depth: every invocation does, matched or not. */
  function Taken(c: Cpu, now: nat): (c': Cpu)
    requires 1 <= |c.holds| && |c.enterJ| == |c.enterI| == |c.holds|
  {
    var d := if Stale(c, now) then 0 else c.depth;
    var inv := c.nextInv + 1;
    var inside := d < |c.holds|;
    c.(depth := d + 1, nextInv := inv,
       enterJ := if inside then c.enterJ[d := now] else c.enterJ,
       enterI := if inside then c.enterI[d := inv] else c.enterI,
       stats := if Stale(c, now) then c.stats.(resync := c.stats.resync + 1) else c.stats)
  }

  /** Writing the hold of an entry-matched invocation, or counting it when it is nested too deep. */
  function Held(c: Cpu, frame: int, image: Image): (c': Cpu)
    requires 1 <= |c.holds| && |c.enterI| == |c.holds| && c.depth > 0
  {
    var slot := c.depth - 1;
    if slot >= |c.holds| then c.(stats := c.stats.(overflow := c.stats.overflow + 1))
    else
      c.(nextSeq := c.nextSeq + 1,
         holds := c.holds[slot := Hold(true, c.enterI[slot], frame, c.nextSeq + 1, image)],
         stats := if c.holds[slot].valid then c.stats.(overwrite := c.stats.overwrite + 1) else c.stats)
  }

  function Entered(c: Cpu, now: nat, frame: int, matched: bool, image: Image): (c': Cpu)
    requires 1 <= |c.holds| && |c.enterJ| == |c.enterI| == |c.holds|
  {
    if matched then Held(Taken(c, now), frame, image) else Taken(c, now)
  }

  /** What an fexit finds: nothing of its own, a hold another invocation left, or a hold to decide on. */
  datatype Verdict = Nothing | Unpaired | Paired(hold: Hold)

  function Exited(c: Cpu, frame: int): (r: (Cpu, Verdict))
    requires |c.enterI| == |c.holds|
  {
    if c.depth == 0 then (c, Nothing)
    else
      var slot := c.depth - 1;
      var c1 := c.(depth := slot);
      if slot >= |c.holds| || !c.holds[slot].valid then (c1, Nothing)
      else
        var hold := c.holds[slot];
        var c2 := c1.(holds := c.holds[slot := hold.(valid := false)]);
        if hold.inv != c.enterI[slot] || hold.frame != frame
        then (c2.(stats := c2.stats.(unpaired := c2.stats.unpaired + 1)), Unpaired)
        else (c2, Paired(hold))
  }

  // ---------------------------------------------------------------- the programs, step by step

  class HoldMap {
    var depth: nat
    var nextInv: nat
    var nextSeq: nat
    var enterJ: seq<nat>
    var enterI: seq<nat>
    var holds: seq<Hold>
    var overwrite: nat
    var unpaired: nat
    var overflow: nat
    var resync: nat

    ghost function View(): Cpu
      reads this
    {
      Cpu(depth, nextInv, nextSeq, enterJ, enterI, holds, Stats(overwrite, unpaired, overflow, resync))
    }

    /** The fentry program. */
    method Fentry(now: nat, frame: int, matched: bool, image: Image)
      requires CpuOk(View())
      modifies this
      ensures View() == Entered(old(View()), now, frame, matched, image) && CpuOk(View())
    {
      Take(now);
      if matched {
        Keep(frame, image);
      }
    }

    /** Its first part: restart a stale depth, number the invocation, go one deeper. */
    method Take(now: nat)
      requires CpuOk(View())
      modifies this
      ensures View() == Taken(old(View()), now) && depth > 0 && CpuOk(View())
    {
      var d := depth;
      if d != 0 {
        var deepest := d - 1;
        if deepest >= |holds| {
          deepest := |holds| - 1;
        }
        if Age(now, enterJ[deepest]) > 1 {
          depth := 0;
          resync := resync + 1;
          d := 0;
        }
      }
      nextInv := nextInv + 1;
      if d < |holds| {
        enterJ := enterJ[d := now];
        enterI := enterI[d := nextInv];
      }
      depth := d + 1;
    }

    /** Its second part, for a match: hold the image, or count that there is no room. */
    method Keep(frame: int, image: Image)
      requires CpuOk(View()) && depth > 0
      modifies this
      ensures View() == Held(old(View()), frame, image) && CpuOk(View())
    {
      var slot := depth - 1;
      if slot >= |holds| {
        overflow := overflow + 1;
        return;
      }
      nextSeq := nextSeq + 1;
      if holds[slot].valid {
        overwrite := overwrite + 1;
      }
      holds := holds[slot := Hold(true, enterI[slot], frame, nextSeq, image)];
    }

    /** The fexit program up to the exit filter. */
    method Fexit(frame: int) returns (v: Verdict)
      requires CpuOk(View())
      modifies this
      ensures (View(), v) == Exited(old(View()), frame) && CpuOk(View())
    {
      if depth == 0 {
        return Nothing;
      }
      depth := depth - 1;
      if depth >= |holds| {
        return Nothing;
      }
      var inv := enterI[depth];
      var hold := holds[depth];
      if !hold.valid {
        return Nothing;
      }
      holds := holds[depth := hold.(valid := false)];
      if hold.inv != inv || hold.frame != frame {
        unpaired := unpaired + 1;
        return Unpaired;
      }
      return Paired(hold);
    }
  }

  // ---------------------------------------------------------------- runs of one CPU

  /** An invocation whose fentry ran, when, and the number of the packet it held (0 for none). */
  datatype Inv = Inv(num: nat, at: nat, frame: int, matched: bool, image: Image, packet: nat)

  datatype Event =
    | Enter(now: nat, frame: int, matched: bool, image: Image)
    | Leave      // the innermost invocation returns and its fexit runs
    | Skip       // it returns, but another attach made it skip its fexit

  /** A CPU with the invocations open on it, innermost last, every invocation so far, and how many
      invocations there were and matched at entry, how many holds were written, and how many were paired. */
  datatype World = World(cpu: Cpu, open: seq<Inv>, past: map<nat, Inv>, entered: nat, matched: nat, written: nat, paired: nat)

  /** Nesting is LIFO and simultaneously open invocations have distinct frames; frames may be reused. */
  ghost predicate Possible(w: World, e: Event) {
    match e
    case Enter(_, frame, _, _) => forall k | 0 <= k < |w.open| :: w.open[k].frame != frame
    case Leave => w.open != []
    case Skip => w.open != []
  }

  ghost predicate Writes(c: Cpu, e: Event)
    requires CpuOk(c)
  {
    e.Enter? && e.matched && Taken(c, e.now).depth <= |c.holds|
  }

  ghost function Next(w: World, e: Event): World
    requires CpuOk(w.cpu) && Possible(w, e)
  {
    match e
    case Enter(now, frame, matched, image) =>
      var inv := Inv(w.entered + 1, now, frame, matched, image, if Writes(w.cpu, e) then w.written + 1 else 0);
      World(Entered(w.cpu, now, frame, matched, image), w.open + [inv], w.past[inv.num := inv],
            w.entered + 1, w.matched + (if matched then 1 else 0), w.written + (if Writes(w.cpu, e) then 1 else 0), w.paired)
    case Leave =>
      var (c, v) := Exited(w.cpu, w.open[|w.open| - 1].frame);
      World(c, w.open[..|w.open| - 1], w.past, w.entered, w.matched, w.written, w.paired + (if v.Paired? then 1 else 0))
    case Skip => w.(open := w.open[..|w.open| - 1])
  }

  /** The verdict of the fexit that event runs. */
  ghost function VerdictOf(w: World, e: Event): Verdict
    requires CpuOk(w.cpu) && Possible(w, e)
  {
    if e.Leave? then Exited(w.cpu, w.open[|w.open| - 1].frame).1 else Nothing
  }

  // ---------------------------------------------------------------- pairing

  /** From `mark` up, every depth below the current one was entered by invocation `k` or later; and
      unless the depth was restarted since (mark 0), the invocations from `k` inward still fit above the mark. */
  ghost predicate FreshFrom(w: World, k: nat, mark: nat)
    requires CpuOk(w.cpu) && k < |w.open|
  {
    var c := w.cpu;
    mark <= c.depth && (mark == 0 || mark + |w.open| - k <= c.depth) &&
    forall j | mark <= j < c.depth && j < |c.holds| :: w.open[k].num <= c.enterI[j]
  }

  ghost predicate Fresh(w: World, k: nat)
    requires CpuOk(w.cpu) && k < |w.open|
  {
    exists mark: nat :: FreshFrom(w, k, mark)
  }

  /** A hold carries what the invocation it names put there. */
  ghost predicate Genuine(w: World, h: Hold) {
    h.valid ==>
      h.inv in w.past && w.past[h.inv].frame == h.frame && w.past[h.inv].image == h.image &&
      h.packetSeq > 0 && w.past[h.inv].packet == h.packetSeq
  }

  /** Invocations are numbered in order from 1, and so are the packets held, each with its own number. */
  ghost predicate Numbered(w: World) {
    (forall n :: n in w.past <==> 1 <= n <= w.entered) && w.cpu.nextInv == w.entered && w.cpu.nextSeq == w.written &&
    (forall n | n in w.past :: w.past[n].packet <= w.written) &&
    forall n, m | n in w.past && m in w.past && n < m && w.past[n].packet > 0 && w.past[m].packet > 0 :: w.past[n].packet < w.past[m].packet
  }

  ghost predicate WorldOk(w: World) {
    CpuOk(w.cpu) && Numbered(w) && (forall n | n in w.past :: w.past[n].num == n) &&
    (forall k | 0 <= k < |w.open| :: w.open[k].num in w.past && w.past[w.open[k].num] == w.open[k]) &&
    (forall k | 0 <= k < |w.open| :: Fresh(w, k)) &&
    (forall k, n | 0 <= k < |w.open| && n in w.past && n > w.open[k].num :: w.past[n].frame != w.open[k].frame) &&
    (forall j | 0 <= j < |w.cpu.holds| :: Genuine(w, w.cpu.holds[j]))
  }

  /** The hold the invocation itself wrote: its number, frame and image, and the number of its packet. */
  ghost predicate OwnHold(h: Hold, inv: Inv) {
    h.inv == inv.num && h.frame == inv.frame && h.image == inv.image && inv.packet > 0 && h.packetSeq == inv.packet
  }

  /** The heart of the argument: whatever was skipped or restarted since, the depth an exit returns to was
      last entered by the exiting invocation itself or by one nested inside it. */
  lemma {:induction false} PairsOwnImage(w: World)
    requires WorldOk(w) && w.open != []
    ensures var top := w.open[|w.open| - 1];
      var v := Exited(w.cpu, top.frame).1;
      v.Paired? ==> OwnHold(v.hold, top)
  {
    var k := |w.open| - 1;
    var top := w.open[k];
    var v := Exited(w.cpu, top.frame).1;
    if v.Paired? {
      assert Fresh(w, k);
      var mark: nat :| FreshFrom(w, k, mark);
      var slot := w.cpu.depth - 1;
      assert top.num <= w.cpu.enterI[slot];
      assert Genuine(w, w.cpu.holds[slot]);
    }
  }

  lemma {:induction false} EnterKeepsFresh(w: World, e: Event, k: nat)
    requires WorldOk(w) && e.Enter? && Possible(w, e) && k < |w.open| + 1
    ensures CpuOk(Next(w, e).cpu) && Fresh(Next(w, e), k)
  {
    var w' := Next(w, e);
    var c, c' := w.cpu, w'.cpu;
    if Stale(c, e.now) {
      assert FreshFrom(w', k, 0);
    } else if k == |w.open| {
      assert FreshFrom(w', k, c.depth);
    } else {
      assert Fresh(w, k);
      var mark: nat :| FreshFrom(w, k, mark);
      assert FreshFrom(w', k, mark);
    }
  }

  lemma {:induction false} LeaveKeepsFresh(w: World, e: Event, k: nat)
    requires WorldOk(w) && !e.Enter? && Possible(w, e) && k + 1 < |w.open|
    ensures CpuOk(Next(w, e).cpu) && Fresh(Next(w, e), k)
  {
    var w' := Next(w, e);
    assert Fresh(w, k);
    var mark: nat :| FreshFrom(w, k, mark);
    assert FreshFrom(w', k, mark);
  }

  lemma {:induction false} EnterKeepsRest(w: World, e: Event)
    requires WorldOk(w) && e.Enter? && Possible(w, e)
    ensures var w' := Next(w, e);
      CpuOk(w'.cpu) && forall j | 0 <= j < |w'.cpu.holds| :: Genuine(w', w'.cpu.holds[j])
  {
    var w' := Next(w, e);
    var d := Taken(w.cpu, e.now).depth - 1;
    forall j | 0 <= j < |w'.cpu.holds|
      ensures Genuine(w', w'.cpu.holds[j])
    {
      assert Genuine(w, w.cpu.holds[j]);
    }
  }

  lemma {:induction false} LeaveKeepsHolds(w: World, e: Event)
    requires WorldOk(w) && !e.Enter? && Possible(w, e)
    ensures var w' := Next(w, e);
      CpuOk(w'.cpu) && forall j | 0 <= j < |w'.cpu.holds| :: Genuine(w', w'.cpu.holds[j])
  {
    var w' := Next(w, e);
    forall j | 0 <= j < |w'.cpu.holds|
      ensures Genuine(w', w'.cpu.holds[j])
    {
      assert Genuine(w, w.cpu.holds[j]);
    }
  }

  /** The entering invocation takes the next number, and if its image is held the next packet number. */
  lemma {:induction false} EnterNumbers(w: World, e: Event)
    requires WorldOk(w) && e.Enter? && Possible(w, e)
    ensures Numbered(Next(w, e))
  {
  }

  /** Open invocations stay on record, and no later one has the frame of an open one. */
  lemma {:induction false} EnterKeepsOpen(w: World, e: Event)
    requires WorldOk(w) && e.Enter? && Possible(w, e)
    ensures var w' := Next(w, e);
      (forall n | n in w'.past :: w'.past[n].num == n) &&
      (forall k | 0 <= k < |w'.open| :: w'.open[k].num in w'.past && w'.past[w'.open[k].num] == w'.open[k]) &&
      (forall k, n | 0 <= k < |w'.open| && n in w'.past && n > w'.open[k].num :: w'.past[n].frame != w'.open[k].frame)
  {
    assert w.entered + 1 !in w.past;
  }

  lemma {:induction false} StepKeepsWorld(w: World, e: Event)
    requires WorldOk(w) && Possible(w, e)
    ensures WorldOk(Next(w, e))
  {
    var w' := Next(w, e);
    if e.Enter? {
      EnterNumbers(w, e);
      EnterKeepsOpen(w, e);
      EnterKeepsRest(w, e);
      forall k | 0 <= k < |w'.open| ensures Fresh(w', k) { EnterKeepsFresh(w, e, k); }
    } else {
      LeaveKeepsHolds(w, e);
      forall k | 0 <= k < |w'.open| ensures Fresh(w', k) { LeaveKeepsFresh(w, e, k); }
    }
  }

  /** A freshly created hold map. */
  ghost function Start(slots: nat, none: Hold): World
    requires 1 <= slots <= MAX_HOLD_SLOTS && !none.valid
  {
    World(Cpu(0, 0, 0, seq(slots, _ => 0), seq(slots, _ => 0), seq(slots, _ => none), Stats(0, 0, 0, 0)), [], map[], 0, 0, 0, 0)
  }

  ghost predicate Plays(w: World, es: seq<Event>)
    decreases |es|
  {
    CpuOk(w.cpu) && (es == [] || (Possible(w, es[0]) && Plays(Next(w, es[0]), es[1..])))
  }

  ghost function After(w: World, es: seq<Event>): World
    requires Plays(w, es)
    decreases |es|
  {
    if es == [] then w else After(Next(w, es[0]), es[1..])
  }

  lemma {:induction false} RunKeepsWorld(w: World, es: seq<Event>)
    requires WorldOk(w) && Plays(w, es)
    ensures WorldOk(After(w, es))
    decreases |es|
  {
    if es != [] {
      StepKeepsWorld(w, es[0]);
      RunKeepsWorld(Next(w, es[0]), es[1..]);
    }
  }

  /** Gated pairing, over every run: whatever nests, is skipped or restarted, an fexit that accepts a hold
      accepts the one its own fentry wrote. */
  lemma {:induction false} PairingIsExact(slots: nat, none: Hold, es: seq<Event>)
    requires 1 <= slots <= MAX_HOLD_SLOTS && !none.valid && Plays(Start(slots, none), es)
    ensures var w := After(Start(slots, none), es);
      CpuOk(w.cpu) &&
      (w.open != [] ==>
        var top := w.open[|w.open| - 1];
        var v := Exited(w.cpu, top.frame).1;
        v.Paired? ==> OwnHold(v.hold, top))
  {
    var w := After(Start(slots, none), es);
    RunKeepsWorld(Start(slots, none), es);
    if w.open != [] {
      PairsOwnImage(w);
    }
  }

  /** In every run the packet counter equals the holds written, and packets held by different invocations have
      different numbers: the records of two packets of a CPU never share one. */
  lemma {:induction false} PacketsHaveOwnNumbers(slots: nat, none: Hold, es: seq<Event>)
    requires 1 <= slots <= MAX_HOLD_SLOTS && !none.valid && Plays(Start(slots, none), es)
    ensures var w := After(Start(slots, none), es);
      w.cpu.nextSeq == w.written && w.cpu.nextInv == w.entered &&
      (forall n, m | n in w.past && m in w.past && n != m && w.past[n].packet > 0 :: w.past[n].packet != w.past[m].packet) &&
      (forall j | 0 <= j < |w.cpu.holds| && w.cpu.holds[j].valid ::
        w.cpu.holds[j].inv in w.past && OwnHold(w.cpu.holds[j], w.past[w.cpu.holds[j].inv]))
  {
    RunKeepsWorld(Start(slots, none), es);
    var w := After(Start(slots, none), es);
    forall j | 0 <= j < |w.cpu.holds| && w.cpu.holds[j].valid
      ensures w.cpu.holds[j].inv in w.past && OwnHold(w.cpu.holds[j], w.past[w.cpu.holds[j].inv])
    {
      assert Genuine(w, w.cpu.holds[j]);
    }
  }

  // ---------------------------------------------------------------- conservation

  function CountValid(holds: seq<Hold>): nat {
    if holds == [] then 0 else CountValid(holds[..|holds| - 1]) + (if holds[|holds| - 1].valid then 1 else 0)
  }

  lemma {:induction false} CountUpdate(holds: seq<Hold>, i: nat, h: Hold)
    requires i < |holds|
    ensures CountValid(holds[i := h]) ==
      CountValid(holds) - (if holds[i].valid then 1 else 0) + (if h.valid then 1 else 0)
    decreases |holds|
  {
    var n := |holds| - 1;
    if i == n {
      assert holds[i := h][..n] == holds[..n];
    } else {
      CountUpdate(holds[..n], i, h);
      assert holds[i := h][..n] == holds[..n][i := h];
    }
  }

  /** Every hold written is paired, counted as lost, or still there; and every invocation that matched at
      entry was held or counted as nested too deep. */
  ghost predicate Conserved(w: World) {
    w.written == w.paired + w.cpu.stats.unpaired + w.cpu.stats.overwrite + CountValid(w.cpu.holds) &&
    w.matched == w.written + w.cpu.stats.overflow
  }

  lemma {:induction false} StepConserves(w: World, e: Event)
    requires CpuOk(w.cpu) && Possible(w, e) && Conserved(w)
    ensures CpuOk(Next(w, e).cpu) && Conserved(Next(w, e))
  {
    match e {
      case Enter(now, frame, matched, image) =>
        var c := Taken(w.cpu, now);
        var slot := c.depth - 1;
        if matched && slot < |c.holds| {
          CountUpdate(c.holds, slot, Hold(true, c.enterI[slot], frame, c.nextSeq + 1, image));
        }
      case Leave =>
        var slot := w.cpu.depth - 1;
        if 0 <= slot < |w.cpu.holds| && w.cpu.holds[slot].valid {
          CountUpdate(w.cpu.holds, slot, w.cpu.holds[slot].(valid := false));
        }
      case Skip =>
    }
  }

  lemma {:induction false} RunConserves(w: World, es: seq<Event>)
    requires CpuOk(w.cpu) && Conserved(w) && Plays(w, es)
    ensures Conserved(After(w, es))
    decreases |es|
  {
    if es != [] {
      StepConserves(w, es[0]);
      RunConserves(Next(w, es[0]), es[1..]);
    }
  }

  /** The scan that `ExportStats` adds to the unpaired count once the links are gone: slot by slot, each
      CPU's copy. */
  method ResidualHolds(cpus: seq<Cpu>, slots: nat) returns (n: nat)
    requires forall k | 0 <= k < |cpus| :: |cpus[k].holds| == slots
    ensures n == Residual(cpus)
  {
    n := 0;
    for slot := 0 to slots
      invariant n == ResidualBelow(cpus, slot)
    {
      for k := 0 to |cpus|
        invariant n == ResidualBelow(cpus, slot) + ValidAt(cpus[..k], slot)
      {
        assert cpus[..k + 1][..k] == cpus[..k];
        if cpus[k].holds[slot].valid {
          n := n + 1;
        }
      }
      assert cpus[..|cpus|] == cpus;
    }
    ResidualIsAll(cpus, slots);
  }

  /** Valid copies of one slot. */
  function ValidAt(cpus: seq<Cpu>, slot: nat): nat
    requires forall k | 0 <= k < |cpus| :: slot < |cpus[k].holds|
  {
    if cpus == [] then 0
    else ValidAt(cpus[..|cpus| - 1], slot) + (if cpus[|cpus| - 1].holds[slot].valid then 1 else 0)
  }

  ghost function ResidualBelow(cpus: seq<Cpu>, slot: nat): nat
    requires forall k | 0 <= k < |cpus| :: slot <= |cpus[k].holds|
  {
    if slot == 0 then 0 else ResidualBelow(cpus, slot - 1) + ValidAt(cpus, slot - 1)
  }

  /** Valid holds, CPU by CPU. */
  ghost function Residual(cpus: seq<Cpu>): nat {
    if cpus == [] then 0 else Residual(cpus[..|cpus| - 1]) + CountValid(cpus[|cpus| - 1].holds)
  }

  lemma {:induction false} OneCpu(cpus: seq<Cpu>, slot: nat)
    requires cpus != [] && forall k | 0 <= k < |cpus| :: slot <= |cpus[k].holds|
    ensures ResidualBelow(cpus, slot)
         == ResidualBelow(cpus[..|cpus| - 1], slot) + CountValid(cpus[|cpus| - 1].holds[..slot])
    decreases slot
  {
    if slot > 0 {
      OneCpu(cpus, slot - 1);
      var h := cpus[|cpus| - 1].holds[..slot];
      assert h[..slot - 1] == cpus[|cpus| - 1].holds[..slot - 1];
    }
  }

  lemma {:induction false} ResidualIsAll(cpus: seq<Cpu>, slots: nat)
    requires forall k | 0 <= k < |cpus| :: |cpus[k].holds| == slots
    ensures ResidualBelow(cpus, slots) == Residual(cpus)
    decreases |cpus|
  {
    if cpus == [] {
      NothingBelow(slots);
    } else {
      OneCpu(cpus, slots);
      ResidualIsAll(cpus[..|cpus| - 1], slots);
      assert cpus[|cpus| - 1].holds[..slots] == cpus[|cpus| - 1].holds;
    }
  }

  lemma {:induction false} NothingBelow(slot: nat)
    ensures ResidualBelow([], slot) == 0
  {
    if slot > 0 {
      NothingBelow(slot - 1);
    }
  }

  /** After the links are gone, the exported unpaired count (the residual scan included) makes the totals
      over all CPUs add up: each held invocation is accounted for exactly once. */
  lemma {:induction false} ExportAddsUp(ws: seq<World>)
    requires forall k | 0 <= k < |ws| :: Conserved(ws[k])
    ensures Total(ws, HeldCount) == Total(ws, PairedCount) + (Total(ws, UnpairedCount) + Residual(Cpus(ws))) + Total(ws, OverwriteCount)
    decreases |ws|
  {
    if ws != [] {
      var n := |ws| - 1;
      ExportAddsUp(ws[..n]);
      assert Cpus(ws)[..n] == Cpus(ws[..n]);
    }
  }

  datatype Counter = HeldCount | PairedCount | UnpairedCount | OverwriteCount

  ghost function Read(w: World, c: Counter): nat {
    match c
    case HeldCount => w.written
    case PairedCount => w.paired
    case UnpairedCount => w.cpu.stats.unpaired
    case OverwriteCount => w.cpu.stats.overwrite
  }

  ghost function Total(ws: seq<World>, c: Counter): nat {
    if ws == [] then 0 else Total(ws[..|ws| - 1], c) + Read(ws[|ws| - 1], c)
  }

  ghost function Cpus(ws: seq<World>): (r: seq<Cpu>)
    ensures |r| == |ws| && forall k | 0 <= k < |ws| :: r[k] == ws[k].cpu
  {
    seq(|ws|, k requires 0 <= k < |ws| => ws[k].cpu)
  }

  // ---------------------------------------------------------------- nothing is lost without a cause

  /** Depth and holds mirror the open invocations exactly. */
  ghost predicate Mirrors(w: World) {
    CpuOk(w.cpu) && w.cpu.depth == |w.open| && w.cpu.nextInv == w.entered &&
    (forall k | 0 <= k < |w.open| && k < |w.cpu.holds| ::
      w.cpu.enterI[k] == w.open[k].num && w.cpu.enterJ[k] == w.open[k].at && w.cpu.holds[k].valid == w.open[k].matched &&
      (w.open[k].matched ==> w.cpu.holds[k].inv == w.open[k].num && w.cpu.holds[k].frame == w.open[k].frame)) &&
    (forall k | |w.open| <= k < |w.cpu.holds| :: !w.cpu.holds[k].valid)
  }

  /** A new map holds nothing and nothing is open. */
  lemma {:induction false} StartMirrors(slots: nat, none: Hold)
    requires 1 <= slots <= 10 && !none.valid
    ensures Mirrors(Start(slots, none)) && WorldOk(Start(slots, none)) && Conserved(Start(slots, none))
    ensures Start(slots, none).cpu.stats == Stats(0, 0, 0, 0)
  {
    NoneValid(seq(slots, _ => none));
  }

  lemma {:induction false} NoneValid(holds: seq<Hold>)
    requires forall h | h in holds :: !h.valid
    ensures CountValid(holds) == 0
    decreases |holds|
  {
    if holds != [] {
      NoneValid(holds[..|holds| - 1]);
    }
  }

  ghost predicate Calm(w: World, e: Event)
    requires CpuOk(w.cpu)
  {
    !e.Skip? && (e.Enter? ==> !Stale(w.cpu, e.now))
  }

  /** With no skipped exit and no stale depth, an exit pairs exactly when its invocation matched at entry
      within the slots, and neither an overwrite nor an unpaired hold is ever counted. */
  lemma {:induction false} CalmStep(w: World, e: Event)
    requires Mirrors(w) && Possible(w, e) && Calm(w, e)
    ensures Mirrors(Next(w, e))
    ensures Next(w, e).cpu.stats.overwrite == w.cpu.stats.overwrite
    ensures Next(w, e).cpu.stats.unpaired == w.cpu.stats.unpaired
    ensures Next(w, e).cpu.stats.resync == w.cpu.stats.resync
    ensures e.Leave? ==> (VerdictOf(w, e).Paired? <==> w.open[|w.open| - 1].matched && |w.open| <= |w.cpu.holds|)
  {
  }

  /** The depth restarts exactly when the innermost open invocation that has a slot entered more than one jiffy ago, and
      each restart is counted. */
  lemma {:induction false} RestartMeansOld(w: World, e: Event)
    requires Mirrors(w) && e.Enter? && Possible(w, e)
    ensures var inner := if |w.open| <= |w.cpu.holds| then |w.open| - 1 else |w.cpu.holds| - 1;
      var late := w.open != [] && (e.now - w.open[inner].at) % 0x1_0000_0000_0000_0000 > 1;
      Next(w, e).cpu.depth == (if late then 1 else |w.open| + 1) &&
      Next(w, e).cpu.stats.resync == w.cpu.stats.resync + (if late then 1 else 0)
  {
  }

  /** What one entry loses, counted where it is lost: a match with no slot left is an overflow, a match that finds the
      hold of an invocation that never exited at its depth is an overwrite. */
  lemma {:induction false} EntryCounts(c: Cpu, now: nat, frame: int, matched: bool, image: Image)
    requires CpuOk(c)
    ensures var c' := Entered(c, now, frame, matched, image); var at := c'.depth - 1;
      c'.stats.unpaired == c.stats.unpaired && 0 <= at &&
      c'.stats.overflow == c.stats.overflow + (if matched && at >= |c.holds| then 1 else 0) &&
      c'.stats.overwrite == c.stats.overwrite + (if matched && at < |c.holds| && c.holds[at].valid then 1 else 0)
  {
  }

  /** What one exit finds at the depth it returns to: it consumes the hold there, pairs with it when both the number and
      the frame are its own, and counts it as unpaired otherwise. */
  lemma {:induction false} ExitCounts(c: Cpu, frame: int)
    requires CpuOk(c)
    ensures var (c', v) := Exited(c, frame); var at := c.depth - 1;
      var found := 0 <= at < |c.holds| && c.holds[at].valid;
      c'.stats.(unpaired := 0) == c.stats.(unpaired := 0) && c'.depth == (if c.depth == 0 then 0 else at) &&
      c'.stats.unpaired == c.stats.unpaired + (if v.Unpaired? then 1 else 0) &&
      (v.Nothing? <==> !found) && (found ==> !c'.holds[at].valid) &&
      (v.Paired? <==> found && c.holds[at].inv == c.enterI[at] && c.holds[at].frame == frame) &&
      (forall j | 0 <= j < |c.holds| && j != at :: c'.holds[j] == c.holds[j])
  {
  }

  ghost predicate CalmRun(w: World, es: seq<Event>)
    requires Plays(w, es)
    decreases |es|
  {
    es == [] || (Calm(w, es[0]) && CalmRun(Next(w, es[0]), es[1..]))
  }

  lemma {:induction false} CalmRunLosesNothing(w: World, es: seq<Event>)
    requires Mirrors(w) && Plays(w, es) && CalmRun(w, es)
    ensures Mirrors(After(w, es)) && After(w, es).cpu.stats.(overflow := 0) == w.cpu.stats.(overflow := 0)
    decreases |es|
  {
    if es != [] {
      CalmStep(w, es[0]);
      CalmRunLosesNothing(Next(w, es[0]), es[1..]);
    }
  }
}
