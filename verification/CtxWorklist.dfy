/** The context tracker's worklist over one function: it terminates at the least solution, or refuses a function
    that has none. */
module CtxWorklist {
  import opened Machine
  import opened CtxDomain
  import opened CtxAnalyze
  import CtxMonotone

  /** Every solution has at least `s` at `j`. */
  ghost predicate Justified(w: Flow, f: nat, j: nat, s: Known) {
    forall x: States | Solved(w, f, x) :: Reached(x, j, s)
  }

  ghost predicate Least(w: Flow, f: nat, states: States) {
    forall i | i in states :: Justified(w, f, i, states[i])
  }

  // ---------------------------------------------------------------- termination

  function Deficit(states: States, lo: nat, hi: nat): nat
    requires lo <= hi && forall i | i in states :: Shaped(states[i])
    decreases hi - lo
  {
    if lo == hi then 0
    else (if lo in states then Height(states[lo]) else MAX_HEIGHT + 1) + Deficit(states, lo + 1, hi)
  }

  lemma {:induction false} DeficitFalls(states: States, j: nat, s: Known, lo: nat, hi: nat)
    requires lo <= hi && (forall i | i in states :: Shaped(states[i])) && Shaped(s)
    requires j in states ==> Covers(s, states[j])
    ensures Deficit(states[j := s], lo, hi) <= Deficit(states, lo, hi)
    ensures lo <= j < hi && (j in states ==> s != states[j]) ==> Deficit(states[j := s], lo, hi) < Deficit(states, lo, hi)
    decreases hi - lo
  {
    if lo < hi {
      DeficitFalls(states, j, s, lo + 1, hi);
      if lo == j && j in states && s != states[j] {
        HeightFalls(states[j], s);
      }
    }
  }

  // ---------------------------------------------------------------- the worklist

  /** The state a merge leaves at `j`. */
  function Merged(states: States, j: nat, s: Known): (t: Known)
    requires Shaped(s) && forall i | i in states :: Shaped(states[i])
  {
    if j in states then JoinState(states[j], s) else s
  }

  lemma {:induction false} MergeCovers(states: States, j: nat, s: Known)
    requires Shaped(s) && forall i | i in states :: Shaped(states[i])
    ensures var t := Merged(states, j, s); Shaped(t) && Covers(t, s) && (j in states ==> Covers(t, states[j]))
  {
    if j in states {
      JoinIsLeast(states[j], s);
    } else {
      CoversItself(s);
    }
  }

  lemma {:induction false} JustifiedJoin(w: Flow, f: nat, states: States, j: nat, s: Known)
    requires Shaped(s) && (forall i | i in states :: Shaped(states[i])) && Least(w, f, states) && Justified(w, f, j, s)
    ensures Justified(w, f, j, Merged(states, j, s)) && Least(w, f, states[j := Merged(states, j, s)])
  {
    if j in states {
      JoinIsLeast(states[j], s);
      assert Justified(w, f, j, states[j]);
      forall x: States | Solved(w, f, x)
        ensures Reached(x, j, JoinState(states[j], s))
      {
        assert Reached(x, j, states[j]) && Reached(x, j, s);
      }
    }
  }

  /** What flows out of a justified state is justified. */
  lemma {:induction false} JustifiedStep(w: Flow, f: nat, i: nat, s: Known, m: nat)
    requires f < |w.fns| && i < |w.p| && Shaped(s) && Justified(w, f, i, s)
    requires Successors(w, f, i).Ok? && m < |Successors(w, f, i).value|
    ensures Justified(w, f, Successors(w, f, i).value[m], After(w, s, i))
  {
    var j := Successors(w, f, i).value[m];
    forall x: States | Solved(w, f, x)
      ensures Reached(x, j, After(w, s, i))
    {
      assert Reached(x, i, s) && Closed(w, f, x, i);
      assert Reached(x, j, After(w, x[i], i));
      CtxMonotone.AfterMonotone(w, s, x[i], i);
      CoversTransitive(After(w, s, i), After(w, x[i], i), x[j]);
    }
  }

  /** No solution includes an instruction that cannot be followed. */
  lemma {:induction false} RefusedHasNoSolution(w: Flow, f: nat, i: nat, s: Known)
    requires f < |w.fns| && i < |w.p| && Justified(w, f, i, s) && Successors(w, f, i).Refused?
    ensures forall x: States :: !Solved(w, f, x)
  {
    forall x: States
      ensures !Solved(w, f, x)
    {
      if Solved(w, f, x) {
        SolutionFollows(w, f, x, i, s);
      }
    }
  }

  lemma {:induction false} SolutionFollows(w: Flow, f: nat, x: States, i: nat, s: Known)
    requires f < |w.fns| && i < |w.p| && Justified(w, f, i, s) && Solved(w, f, x)
    ensures Successors(w, f, i).Ok?
  {
    assert Reached(x, i, s) && Closed(w, f, x, i);
  }

  /** Raising one state keeps what is accounted for. */
  lemma {:induction false} RaiseKeeps(states: States, j: nat, t: Known, k: nat, s: Known)
    requires Reached(states, k, s) && (j in states ==> Covers(t, states[j]))
    ensures Reached(states[j := t], k, s)
  {
    if j == k {
      CoversTransitive(s, states[k], t);
    }
  }

  lemma {:induction false} RaiseKeepsClosed(w: Flow, f: nat, states: States, j: nat, t: Known, i: nat)
    requires f < |w.fns| && StatesOk(w, f, states) && Within(w, f, j) && Shaped(t) && i in states && i != j
    requires Closed(w, f, states, i) && (j in states ==> Covers(t, states[j]))
    ensures Closed(w, f, states[j := t], i)
  {
    var succ := Successors(w, f, i);
    forall m | 0 <= m < |succ.value|
      ensures Reached(states[j := t], succ.value[m], After(w, states[i], i))
    {
      RaiseKeeps(states, j, t, succ.value[m], After(w, states[i], i));
    }
  }

  /** The loop invariant: every state is closed, waits in the worklist, or is the one being processed. */
  ghost predicate Pending(w: Flow, f: nat, states: States, work: seq<nat>, now: int) {
    f < |w.fns| && 0 <= w.fns[f].param < 5 && StatesOk(w, f, states) &&
    Reached(states, w.fns[f].lo, Initial(w.fns[f].param)) &&
    (forall k | 0 <= k < |work| :: work[k] in states) &&
    (forall i | i in states :: i in work || i == now || Closed(w, f, states, i))
  }

  /** Unchanged, or strictly closer to the end. */
  ghost predicate Onward(w: Flow, f: nat, states: States, work: seq<nat>, states': States, work': seq<nat>)
    requires f < |w.fns| && w.fns[f].lo <= w.fns[f].hi
    requires (forall i | i in states :: Shaped(states[i])) && (forall i | i in states' :: Shaped(states'[i]))
  {
    (states' == states && |work'| <= |work|) ||
    Deficit(states', w.fns[f].lo, w.fns[f].hi) < Deficit(states, w.fns[f].lo, w.fns[f].hi)
  }

  /** `k` kept its state or went back on the worklist. */
  ghost predicate Unmoved(states: States, states': States, work': seq<nat>, k: nat) {
    k in states && k in states' && (k in work' || states'[k] == states[k])
  }

  method Merge(w: Flow, f: nat, states: States, work: seq<nat>, j: nat, s: Known, ghost now: int) returns (states': States, work': seq<nat>)
    requires Pending(w, f, states, work, now) && Within(w, f, j) && Shaped(s)
    requires Least(w, f, states) && Justified(w, f, j, s)
    ensures Pending(w, f, states', work', now) && Least(w, f, states') && Reached(states', j, s)
    ensures Onward(w, f, states, work, states', work')
    ensures forall k: nat, a: Known | Reached(states, k, a) :: Reached(states', k, a)
    ensures forall k | k in states :: Unmoved(states, states', work', k)
    ensures forall k | k in work :: k in work'
  {
    MergeCovers(states, j, s);
    var t := Merged(states, j, s);
    if j in states && t == states[j] {
      return states, work;
    }
    states', work' := states[j := t], work + [j];
    JustifiedJoin(w, f, states, j, s);
    DeficitFalls(states, j, t, w.fns[f].lo, w.fns[f].hi);
    forall k: nat, a: Known | Reached(states, k, a)
      ensures Reached(states', k, a)
    {
      RaiseKeeps(states, j, t, k, a);
    }
    forall i | i in states'
      ensures i in work' || i == now || Closed(w, f, states', i)
    {
      if i != j && i !in work && i != now {
        assert Closed(w, f, states, i);
        RaiseKeepsClosed(w, f, states, j, t, i);
      }
    }
  }

  /** Processes one popped instruction. */
  method Propagate(w: Flow, f: nat, states: States, work: seq<nat>, i: nat, succ: seq<nat>) returns (states': States, work': seq<nat>)
    requires Pending(w, f, states, work, i) && Least(w, f, states) && i in states && w.fns[f].lo <= w.fns[f].hi
    requires Successors(w, f, i) == Ok(succ)
    ensures Pending(w, f, states', work', -1) && Least(w, f, states')
    ensures Onward(w, f, states, work, states', work')
  {
    states', work' := states, work;
    for m := 0 to |succ|
      invariant Pending(w, f, states', work', i) && Least(w, f, states') && Unmoved(states, states', work', i)
      invariant AllReached(states', succ, m, After(w, states[i], i))
      invariant Onward(w, f, states, work, states', work')
    {
      assert Justified(w, f, i, states[i]);
      states', work' := Advance(w, f, states', work', i, states[i], succ, m);
    }
    ClosedNow(w, f, states, states', work', i, succ);
  }

  /** Merges what flows out of `i`, which had state `s`, into its m-th successor. */
  method Advance(w: Flow, f: nat, states: States, work: seq<nat>, i: nat, s: Known, succ: seq<nat>, m: nat) returns (states': States, work': seq<nat>)
    requires Pending(w, f, states, work, i) && Least(w, f, states) && w.fns[f].lo <= w.fns[f].hi
    requires i < |w.p| && Shaped(s) && Justified(w, f, i, s) && i in states && (i in work || states[i] == s)
    requires Successors(w, f, i) == Ok(succ) && m < |succ| && AllReached(states, succ, m, After(w, s, i))
    ensures Pending(w, f, states', work', i) && Least(w, f, states')
    ensures i in states' && (i in work' || states'[i] == s)
    ensures AllReached(states', succ, m + 1, After(w, s, i))
    ensures Onward(w, f, states, work, states', work')
  {
    SuccessorsWithin(w, f, i);
    JustifiedStep(w, f, i, s, m);
    states', work' := Merge(w, f, states, work, succ[m], After(w, s, i), i);
    assert Unmoved(states, states', work', i);
  }

  ghost predicate AllReached(states: States, succ: seq<nat>, m: nat, s: Known)
    requires m <= |succ|
  {
    forall k | 0 <= k < m :: Reached(states, succ[k], s)
  }

  lemma {:induction false} ClosedNow(w: Flow, f: nat, states: States, states': States, work': seq<nat>, i: nat, succ: seq<nat>)
    requires Pending(w, f, states', work', i) && StatesOk(w, f, states) && Unmoved(states, states', work', i)
    requires Successors(w, f, i) == Ok(succ) && AllReached(states', succ, |succ|, After(w, states[i], i))
    ensures Pending(w, f, states', work', -1)
  {
    if i !in work' {
      assert Closed(w, f, states', i);
    }
  }

  lemma {:induction false} SuccessorsWithin(w: Flow, f: nat, i: nat)
    requires f < |w.fns| && i < |w.p| && Successors(w, f, i).Ok?
    ensures var succ := Successors(w, f, i).value; forall m | 0 <= m < |succ| :: Within(w, f, succ[m])
  {
  }

  /** One round: pops an instruction and propagates its state; refused when it cannot be followed. */
  method Round(w: Flow, f: nat, states: States, work: seq<nat>) returns (ok: bool, states': States, work': seq<nat>)
    requires Pending(w, f, states, work, -1) && Least(w, f, states) && work != [] && w.fns[f].lo <= w.fns[f].hi
    ensures ok ==> Pending(w, f, states', work', -1) && Least(w, f, states')
    ensures ok ==> (states' == states && |work'| < |work|) || Deficit(states', w.fns[f].lo, w.fns[f].hi) < Deficit(states, w.fns[f].lo, w.fns[f].hi)
    ensures !ok ==> forall x: States :: !Solved(w, f, x)
  {
    var i := work[|work| - 1];
    var rest := work[..|work| - 1];
    var succ := Successors(w, f, i);
    if succ.Refused? {
      assert Justified(w, f, i, states[i]);
      RefusedHasNoSolution(w, f, i, states[i]);
      return false, states, work;
    }
    assert work == rest + [i];
    ok := true;
    states', work' := Propagate(w, f, states, rest, i, succ.value);
  }

  /** Terminates with the least solution, and refuses exactly when there is none. */
  method Analyze(w: Flow, f: nat) returns (ok: bool, states: States)
    requires f < |w.fns| && FnOk(w, f) && 0 <= w.fns[f].param < 5
    ensures ok ==> Solved(w, f, states) && Least(w, f, states)
    ensures ok <==> exists x: States :: Solved(w, f, x)
  {
    var start, initial := w.fns[f].lo, Initial(w.fns[f].param);
    CoversItself(initial);
    ok, states := true, map[start := initial];
    var work: seq<nat> := [start];
    while work != []
      invariant Pending(w, f, states, work, -1) && Least(w, f, states)
      decreases Deficit(states, w.fns[f].lo, w.fns[f].hi), |work|
    {
      ok, states, work := Round(w, f, states, work);
      if !ok {
        return;
      }
    }
    ok := true;
  }
}
