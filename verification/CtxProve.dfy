/** Which functions are proved to start with the program context: the entry and global functions on their own,
    static functions when every direct caller is proved and passes it. */
module CtxProve {
  import opened Machine
  import opened CtxDomain
  import opened CtxAnalyze
  import opened CtxWorklist

  datatype Verdict = Open | Refuted | Proven(states: States)

  predicate Eligible(w: Flow, f: nat)
    requires f < |w.fns|
  {
    0 <= w.fns[f].param < 5 && (f == 0 ==> w.fns[f].param == 0) && !IsCallback(w, w.fns[f].lo)
  }

  /** The verifier checks the entry and global functions independently of their callers. */
  predicate Root(w: Flow, f: nat)
    requires f < |w.fns|
  {
    f == 0 || w.fns[f].isGlobal
  }

  /** Instruction `i` of function `g` calls function `f`. */
  predicate IsCaller(w: Flow, f: nat, g: nat, i: nat)
    requires f < |w.fns|
  {
    g < |w.fns| && Within(w, g, i) && i < |w.p| && w.p[i].op.CallFunc? && Callee(w, i) == w.fns[f].lo
  }

  predicate Passes(w: Flow, out: seq<Verdict>, f: nat, g: nat, i: nat)
    requires f < |w.fns| == |out| && g < |out|
  {
    out[g].Proven? && i in out[g].states && |out[g].states[i].regs| == REGS && 0 <= w.fns[f].param < 5 &&
    out[g].states[i].regs[1 + w.fns[f].param].TheCtx?
  }

  ghost predicate NoCaller(w: Flow, f: nat)
    requires f < |w.fns|
  {
    forall g: nat, i: nat :: !IsCaller(w, f, g, i)
  }

  ghost predicate AllPass(w: Flow, out: seq<Verdict>, f: nat)
    requires f < |w.fns| == |out|
  {
    forall g: nat, i: nat | IsCaller(w, f, g, i) :: Passes(w, out, f, g, i)
  }

  /** A caller that is settled and does not pass the context. */
  ghost predicate Fails(w: Flow, out: seq<Verdict>, f: nat, g: nat, i: nat)
    requires f < |w.fns| == |out|
  {
    IsCaller(w, f, g, i) && !out[g].Open? && !Passes(w, out, f, g, i)
  }

  ghost predicate SomeFails(w: Flow, out: seq<Verdict>, f: nat)
    requires f < |w.fns| == |out|
  {
    exists g: nat, i: nat :: Fails(w, out, f, g, i)
  }

  /** Every verdict has its reason. */
  ghost predicate Grounded(w: Flow, out: seq<Verdict>, f: nat)
    requires f < |w.fns| == |out|
  {
    match out[f]
    case Open => Eligible(w, f)
    case Refuted =>
      !Eligible(w, f) || Unsolvable(w, f) || (!Root(w, f) && (NoCaller(w, f) || SomeFails(w, out, f)))
    case Proven(states) =>
      Eligible(w, f) && Solved(w, f, states) && Least(w, f, states) && (Root(w, f) || (!NoCaller(w, f) && AllPass(w, out, f)))
  }

  ghost predicate Unsolvable(w: Flow, f: nat) {
    forall x: States :: !Solved(w, f, x)
  }

  ghost predicate AllGrounded(w: Flow, out: seq<Verdict>) {
    |out| == |w.fns| && forall f | 0 <= f < |out| :: Grounded(w, out, f)
  }

  /** Settled verdicts stay. */
  lemma {:induction false} SettleKeeps(w: Flow, out: seq<Verdict>, f: nat, v: Verdict)
    requires AllGrounded(w, out) && f < |out| && out[f].Open? && !v.Open?
    requires Grounded(w, out[f := v], f)
    ensures AllGrounded(w, out[f := v])
  {
    var out' := out[f := v];
    forall h | 0 <= h < |out|
      ensures Grounded(w, out', h)
    {
      if h != f {
        assert Grounded(w, out, h);
        SettledStays(w, out, f, v, h);
      }
    }
  }

  lemma {:induction false} SettledStays(w: Flow, out: seq<Verdict>, f: nat, v: Verdict, h: nat)
    requires |out| == |w.fns| && f < |out| && h < |out| && out[f].Open? && !v.Open?
    ensures SomeFails(w, out, h) ==> SomeFails(w, out[f := v], h)
    ensures AllPass(w, out, h) ==> AllPass(w, out[f := v], h)
  {
    var out' := out[f := v];
    if SomeFails(w, out, h) {
      var g: nat, i: nat :| Fails(w, out, h, g, i);
      assert Fails(w, out', h, g, i);
    }
    if AllPass(w, out, h) {
      forall g: nat, i: nat | IsCaller(w, h, g, i)
        ensures Passes(w, out', h, g, i)
      {
        assert Passes(w, out, h, g, i);
      }
    }
  }

  // ---------------------------------------------------------------- callers

  datatype Site = Site(caller: nat, at: nat)

  method CallersIn(w: Flow, f: nat, g: nat) returns (sites: seq<Site>)
    requires f < |w.fns| && g < |w.fns| && FnOk(w, g)
    ensures forall s: Site :: s in sites <==> s.caller == g && IsCaller(w, f, g, s.at)
  {
    sites := [];
    for i := w.fns[g].lo to w.fns[g].hi
      invariant forall s: Site :: s in sites <==> s.caller == g && s.at < i && IsCaller(w, f, g, s.at)
    {
      if w.p[i].op.CallFunc? && Callee(w, i) == w.fns[f].lo {
        sites := sites + [Site(g, i)];
      }
    }
  }

  method Callers(w: Flow, f: nat) returns (sites: seq<Site>)
    requires FlowOk(w) && f < |w.fns|
    ensures forall s: Site :: s in sites <==> IsCaller(w, f, s.caller, s.at)
  {
    sites := [];
    for g := 0 to |w.fns|
      invariant forall s: Site :: s in sites <==> s.caller < g && IsCaller(w, f, s.caller, s.at)
    {
      assert FnOk(w, g);
      var more := CallersIn(w, f, g);
      sites := sites + more;
    }
  }

  datatype Readiness = Waiting | Bad | Ready

  /** Checks the callers in order, stopping at the first that is not settled or does not pass the context. */
  method CheckCallers(w: Flow, out: seq<Verdict>, f: nat, sites: seq<Site>) returns (r: Readiness)
    requires f < |w.fns| == |out|
    requires forall s: Site :: s in sites <==> IsCaller(w, f, s.caller, s.at)
    ensures r.Ready? ==> AllPass(w, out, f)
    ensures r.Bad? ==> SomeFails(w, out, f)
    ensures r.Waiting? ==> exists g: nat, i: nat :: IsCaller(w, f, g, i) && out[g].Open?
  {
    for k := 0 to |sites|
      invariant forall m | 0 <= m < k :: sites[m].caller < |out| && Passes(w, out, f, sites[m].caller, sites[m].at)
    {
      var s := sites[k];
      assert s in sites;
      if out[s.caller].Open? {
        return Waiting;
      }
      if !Passes(w, out, f, s.caller, s.at) {
        assert Fails(w, out, f, s.caller, s.at);
        return Bad;
      }
    }
    forall g: nat, i: nat | IsCaller(w, f, g, i)
      ensures Passes(w, out, f, g, i)
    {
      assert Site(g, i) in sites;
    }
    return Ready;
  }

  // ---------------------------------------------------------------- the pass

  function CountOpen(out: seq<Verdict>): nat {
    if out == [] then 0 else CountOpen(out[..|out| - 1]) + (if out[|out| - 1].Open? then 1 else 0)
  }

  lemma {:induction false} SettleCounts(out: seq<Verdict>, f: nat, v: Verdict)
    requires f < |out| && out[f].Open? && !v.Open?
    ensures CountOpen(out[f := v]) == CountOpen(out) - 1
    decreases |out|
  {
    var n := |out| - 1;
    if f == n {
      assert out[f := v][..n] == out[..n];
    } else {
      SettleCounts(out[..n], f, v);
      assert out[f := v][..n] == out[..n][f := v];
    }
  }

  /** An open function that some open function calls. */
  ghost predicate Stalled(w: Flow, out: seq<Verdict>, f: nat)
    requires f < |w.fns| == |out|
  {
    !Root(w, f) && exists g: nat, i: nat :: IsCaller(w, f, g, i) && out[g].Open?
  }

  /** Settles one open function if its callers allow it. */
  method Settle(w: Flow, out: seq<Verdict>, f: nat) returns (v: Verdict)
    requires FlowOk(w) && AllGrounded(w, out) && f < |out| && out[f].Open?
    ensures !v.Open? ==> Grounded(w, out[f := v], f)
    ensures v.Open? ==> Stalled(w, out, f)
  {
    assert Grounded(w, out, f) && FnOk(w, f);
    var ready := Ready;
    if !Root(w, f) {
      var sites := Callers(w, f);
      if sites == [] {
        assert forall g: nat, i: nat :: IsCaller(w, f, g, i) ==> Site(g, i) in sites;
        return Refuted;
      }
      assert sites[0] in sites;
      ready := CheckCallers(w, out, f, sites);
    }
    if ready.Waiting? {
      return Open;
    }
    if ready.Bad? {
      SettledStays(w, out, f, Refuted, f);
      return Refuted;
    }
    var ok, states := Analyze(w, f);
    v := if ok then Proven(states) else Refuted;
    SettledStays(w, out, f, v, f);
  }

  /** Verdicts for every function: each proved one starts from a least solution and, unless it is a root, every
      caller is proved and passes the context; each other one has a reason. */
  method Prove(w: Flow) returns (out: seq<Verdict>)
    requires FlowOk(w)
    ensures AllGrounded(w, out)
    ensures forall f | 0 <= f < |out| :: out[f].Open? ==> Stalled(w, out, f)
  {
    out := seq(|w.fns|, f requires 0 <= f < |w.fns| => if Eligible(w, f) then Open else Refuted);
    var progress := true;
    while progress
      invariant AllGrounded(w, out)
      invariant !progress ==> forall f | 0 <= f < |out| :: out[f].Open? ==> Stalled(w, out, f)
      decreases CountOpen(out), progress
    {
      progress, out := Sweep(w, out);
    }
  }

  /** One sweep over the functions. */
  method Sweep(w: Flow, before: seq<Verdict>) returns (progress: bool, out: seq<Verdict>)
    requires FlowOk(w) && AllGrounded(w, before)
    ensures AllGrounded(w, out)
    ensures progress ==> CountOpen(out) < CountOpen(before)
    ensures !progress ==> out == before && forall f | 0 <= f < |out| :: out[f].Open? ==> Stalled(w, out, f)
  {
    progress, out := false, before;
    for f := 0 to |w.fns|
      invariant AllGrounded(w, out)
      invariant progress ==> CountOpen(out) < CountOpen(before)
      invariant !progress ==> out == before && forall h | 0 <= h < f :: out[h].Open? ==> Stalled(w, out, h)
    {
      var moved, next := SettleAt(w, out, f);
      if moved {
        progress, out := true, next;
      }
    }
  }

  method SettleAt(w: Flow, before: seq<Verdict>, f: nat) returns (moved: bool, out: seq<Verdict>)
    requires FlowOk(w) && AllGrounded(w, before) && f < |before|
    ensures AllGrounded(w, out)
    ensures moved ==> CountOpen(out) < CountOpen(before)
    ensures !moved ==> out == before && (out[f].Open? ==> Stalled(w, out, f))
  {
    moved, out := false, before;
    if before[f].Open? {
      var v := Settle(w, before, f);
      if !v.Open? {
        SettleKeeps(w, before, f, v);
        SettleCounts(before, f, v);
        moved, out := true, before[f := v];
      }
    }
  }
}
