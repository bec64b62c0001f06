/** The kernel's tail-call reachability walk, which overwrites its flag on entering a callee and never restores
    it, and what that walk computes. */
module TailCallWalk {
  import opened CallGraph

  /** A chain of calls from `i` ends in a function that satisfies the test. */
  ghost predicate Leads(g: Graph, i: nat, p: seq<nat>) {
    IsPath(g, p) && p[0] == i
  }

  ghost predicate ReachesTail(g: Graph, i: nat) {
    exists p: seq<nat> :: Leads(g, i, p) && g[p[|p| - 1]].tailCall
  }

  predicate TailLeaf(f: Func) {
    f.tailCall && f.walk == []
  }

  ghost predicate ReachesTailLeaf(g: Graph, i: nat) {
    exists p: seq<nat> :: Leads(g, i, p) && TailLeaf(g[p[|p| - 1]])
  }

  /** A chain from `i` is `i` alone, or goes on from something `i` calls. */
  lemma {:induction false} FirstCall(g: Graph, i: nat, p: seq<nat>)
    requires GraphOk(g) && Leads(g, i, p)
    ensures |p| == 1 || (p[1] in g[i].callees && p[1] in g[i].walk && Leads(g, p[1], p[1..]) && p[1..][|p| - 2] == p[|p| - 1])
  {
    if |p| > 1 {
      assert Edge(g, p[0], p[0 + 1]);
      var q := p[1..];
      forall k | 0 <= k < |q| - 1 ensures Edge(g, q[k], q[k + 1]) { assert Edge(g, p[k + 1], p[k + 1 + 1]); }
    }
  }

  lemma {:induction false} Prepend(g: Graph, i: nat, c: nat, p: seq<nat>)
    requires GraphOk(g) && Edge(g, i, c) && Leads(g, c, p)
    ensures Leads(g, i, [i] + p) && ([i] + p)[|p|] == p[|p| - 1]
  {
    var q := [i] + p;
    forall k | 0 <= k < |q| - 1
      ensures Edge(g, q[k], q[k + 1])
    {
      if k > 0 { assert Edge(g, p[k - 1], p[k - 1 + 1]); }
    }
  }

  lemma {:induction false} ReachesTailByCall(g: Graph, i: nat)
    requires GraphOk(g) && i < |g|
    ensures ReachesTail(g, i) <==> g[i].tailCall || exists c | c in g[i].callees :: ReachesTail(g, c)
  {
    if ReachesTail(g, i) {
      var p :| Leads(g, i, p) && g[p[|p| - 1]].tailCall;
      FirstCall(g, i, p);
      assert |p| > 1 ==> ReachesTail(g, p[1]);
    }
    if g[i].tailCall {
      assert Leads(g, i, [i]);
    }
    forall c | c in g[i].callees && ReachesTail(g, c)
      ensures ReachesTail(g, i)
    {
      var p :| Leads(g, c, p) && g[p[|p| - 1]].tailCall;
      Prepend(g, i, c, p);
    }
  }

  lemma {:induction false} ReachesLeafByCall(g: Graph, i: nat)
    requires GraphOk(g) && i < |g|
    ensures ReachesTailLeaf(g, i) <==>
      if g[i].walk == [] then g[i].tailCall else exists c | c in g[i].walk :: ReachesTailLeaf(g, c)
  {
    if ReachesTailLeaf(g, i) {
      var p :| Leads(g, i, p) && TailLeaf(g[p[|p| - 1]]);
      FirstCall(g, i, p);
      assert |p| > 1 ==> ReachesTailLeaf(g, p[1]);
    }
    if TailLeaf(g[i]) {
      assert Leads(g, i, [i]);
    }
    forall c | c in g[i].walk && ReachesTailLeaf(g, c)
      ensures ReachesTailLeaf(g, i)
    {
      var p :| Leads(g, c, p) && TailLeaf(g[p[|p| - 1]]);
      Prepend(g, i, c, p);
    }
  }

  /** Every function called from `i` sits lower. */
  ghost predicate Falls(g: Graph, height: seq<nat>, i: nat)
    requires |height| == |g| && i < |g|
  {
    forall c | c in g[i].callees + g[i].walk :: c < |g| && height[c] < height[i]
  }

  ghost predicate Falling(g: Graph, height: seq<nat>) {
    GraphOk(g) && |height| == |g| && forall i | 0 <= i < |g| :: Falls(g, height, i)
  }

  lemma {:induction false} OrderFalls(g: Graph, order: seq<nat>) returns (height: seq<nat>)
    requires GraphOk(g) && IsTopological(g, order)
    ensures Falling(g, height)
  {
    height := seq(|g|, i requires 0 <= i < |g| => |g| - Place(order, i));
    forall i, c | 0 <= i < |g| && c in g[i].callees + g[i].walk
      ensures c < |g| && height[c] < height[i]
    {
      assert Edge(g, order[Place(order, i)], order[Place(order, c)]);
    }
  }

  // ---------------------------------------------------------------- the two walks

  /** `tails` says of each function whether it reaches a tail call, by what it calls. */
  ghost predicate TailAt(g: Graph, tails: seq<bool>, i: nat)
    requires i < |g| == |tails|
  {
    tails[i] <==> g[i].tailCall || exists k | 0 <= k < |g[i].callees| :: g[i].callees[k] < |g| && tails[g[i].callees[k]]
  }

  /** `leaves` says of each function whether it reaches a tail-calling leaf, by what it walks. */
  ghost predicate LeafAt(g: Graph, leaves: seq<bool>, i: nat)
    requires i < |g| == |leaves|
  {
    leaves[i] <==> if g[i].walk == [] then g[i].tailCall else SomeLeaf(g, leaves, i, |g[i].walk|)
  }

  /** One of the first `m` walked functions reaches a tail-calling leaf. */
  ghost predicate SomeLeaf(g: Graph, leaves: seq<bool>, i: nat, m: nat)
    requires i < |g| == |leaves| && m <= |g[i].walk|
  {
    exists j | 0 <= j < m :: g[i].walk[j] < |g| && leaves[g[i].walk[j]]
  }

  lemma {:induction false} Tails(g: Graph) returns (tails: seq<bool>)
    requires GraphOk(g)
    ensures |tails| == |g| && forall i | 0 <= i < |g| :: (tails[i] <==> ReachesTail(g, i)) && TailAt(g, tails, i)
  {
    tails := seq(|g|, i requires 0 <= i < |g| => ReachesTail(g, i));
    forall i | 0 <= i < |g|
      ensures TailAt(g, tails, i)
    {
      ReachesTailByCall(g, i);
    }
  }

  lemma {:induction false} Leaves(g: Graph) returns (leaves: seq<bool>)
    requires GraphOk(g)
    ensures |leaves| == |g| && forall i | 0 <= i < |g| :: (leaves[i] <==> ReachesTailLeaf(g, i)) && LeafAt(g, leaves, i)
  {
    leaves := seq(|g|, i requires 0 <= i < |g| => ReachesTailLeaf(g, i));
    forall i | 0 <= i < |g|
      ensures LeafAt(g, leaves, i)
    {
      ReachesLeafByCall(g, i);
    }
  }

  /** Does `i` reach a tail call? Only positive answers are remembered. */
  method FindTail(g: Graph, ghost height: seq<nat>, ghost tails: seq<bool>, i: nat, want: array<bool>) returns (r: bool)
    requires Falling(g, height) && i < |g| && want.Length == |g| == |tails|
    requires forall k | 0 <= k < |g| :: TailAt(g, tails, k)
    requires forall k | 0 <= k < |g| :: want[k] ==> tails[k]
    modifies want
    ensures forall k | 0 <= k < |g| :: (old(want[k]) ==> want[k]) && (want[k] ==> tails[k])
    ensures r == tails[i]
    decreases height[i]
  {
    assert TailAt(g, tails, i);
    if want[i] || g[i].tailCall {
      want[i] := true;
      return true;
    }
    for k := 0 to |g[i].callees|
      invariant forall j | 0 <= j < |g| :: (old(want[j]) ==> want[j]) && (want[j] ==> tails[j])
      invariant want[i] || forall m | 0 <= m < k :: !tails[g[i].callees[m]]
    {
      assert Falls(g, height, i);
      var found := FindTail(g, height, tails, g[i].callees[k], want);
      if found {
        want[i] := true;
      }
    }
    r := want[i];
  }

  /** Whether walking `i`, entered with the flag at `local`, ever leaves a function with the flag set. */
  ghost predicate Fires(g: Graph, leaves: seq<bool>, i: nat, local: bool)
    requires i < |g| == |leaves|
  {
    if g[i].walk == [] then local else leaves[i]
  }

  /** The kernel's walk: marks every caller on the path whenever a function is left with the shared flag set. */
  method Walk(g: Graph, ghost height: seq<nat>, ghost leaves: seq<bool>, i: nat, callers: seq<nat>, marked: array<bool>, flag: bool)
    returns (local: bool)
    requires Falling(g, height) && i < |g| && marked.Length == |g| == |leaves|
    requires forall k | 0 <= k < |g| :: LeafAt(g, leaves, k)
    requires forall k | 0 <= k < |callers| :: callers[k] < |g|
    modifies marked
    ensures local ==> Fires(g, leaves, i, flag)
    ensures forall k | k in callers + [i] :: marked[k] <==> old(marked[k]) || Fires(g, leaves, i, flag)
    decreases height[i]
  {
    local := flag;
    var path := callers + [i];
    assert LeafAt(g, leaves, i);
    for m := 0 to |g[i].walk|
      invariant if m == 0 then local == flag else local ==> SomeLeaf(g, leaves, i, m)
      invariant forall k | k in path :: marked[k] <==> old(marked[k]) || SomeLeaf(g, leaves, i, m)
    {
      var c := g[i].walk[m];
      assert Falls(g, height, i) && LeafAt(g, leaves, c);
      local := Walk(g, height, leaves, c, path, marked, g[c].tailCall);
      assert forall k | k in path :: k in path + [c];
      assert SomeLeaf(g, leaves, i, m + 1) <==> SomeLeaf(g, leaves, i, m) || leaves[c];
    }
    if local {
      MarkAll(path, marked);
    }
  }

  method MarkAll(path: seq<nat>, marked: array<bool>)
    requires forall k | 0 <= k < |path| :: path[k] < marked.Length
    modifies marked
    ensures forall k | 0 <= k < marked.Length :: marked[k] <==> old(marked[k]) || k in path
  {
    for n := 0 to |path|
      invariant forall k | 0 <= k < marked.Length :: marked[k] <==> old(marked[k]) || k in path[..n]
    {
      marked[path[n]] := true;
      assert path[..n + 1] == path[..n] + [path[n]];
    }
  }

  // ---------------------------------------------------------------- the closed form

  /** Every tail-calling function the entry reaches itself calls or refers to something. */
  ghost predicate TailCallersCall(g: Graph) {
    forall p: seq<nat> | Leads(g, 0, p) && g[p[|p| - 1]].tailCall :: g[p[|p| - 1]].walk != []
  }

  ghost predicate Loses(g: Graph) {
    |g| > 0 && ReachesTail(g, 0) && !g[0].tailCall && TailCallersCall(g)
  }

  lemma {:induction false} NoLeafMeansCall(g: Graph)
    requires |g| > 0
    ensures TailCallersCall(g) <==> !ReachesTailLeaf(g, 0)
  {
    if ReachesTailLeaf(g, 0) {
      var p :| Leads(g, 0, p) && TailLeaf(g[p[|p| - 1]]);
      assert Leads(g, 0, p) && g[p[|p| - 1]].tailCall && g[p[|p| - 1]].walk == [];
    }
  }

  /** The simulated walk forgets a tail call exactly when the closed form says so. */
  method LosesTailCallReachability(g: Graph) returns (ok: bool, loses: bool)
    requires GraphOk(g)
    ensures ok <==> !Cyclic(g)
    ensures ok ==> (loses <==> Loses(g))
    ensures !ok ==> !loses
  {
    var order;
    ok, order := TopoOrder(g);
    loses := false;
    if !ok || |g| == 0 {
      return;
    }
    ghost var height := OrderFalls(g, order);
    var want := new bool[|g|](_ => false);
    ghost var tails := Tails(g);
    var reaches := FindTail(g, height, tails, 0, want);
    if !reaches {
      return;
    }
    var marked := new bool[|g|](k requires 0 <= k < |g| => g[k].tailCall);
    ghost var leaves := Leaves(g);
    var local := Walk(g, height, leaves, 0, [], marked, false);
    assert 0 in [] + [0];
    NoLeafMeansCall(g);
    ReachesLeafByCall(g, 0);
    loses := !marked[0];
  }

  /** A rewrite is refused when it introduces the loss; a program that already had it is not. */
  method IntroducesLoss(original: Graph, transformed: Graph) returns (ok: bool, introduced: bool)
    requires GraphOk(original) && GraphOk(transformed)
    ensures introduced ==> Loses(transformed) && !Loses(original)
    ensures ok <==> !Cyclic(original) && (Loses(original) || !Cyclic(transformed))
    ensures ok ==> (introduced <==> !Loses(original) && Loses(transformed))
  {
    var before;
    ok, before := LosesTailCallReachability(original);
    if !ok || before {
      return ok, false;
    }
    ok, introduced := LosesTailCallReachability(transformed);
  }
}
