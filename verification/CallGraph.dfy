/** The call graph of a program, its topological order, and the longest chains of callers above each
    function. */
module CallGraph {

  /** One function: its frame depth, whether it tail-calls, whether the rewrite deepened it, the functions it
      calls or refers to (each once), and every such reference in instruction order. */
  datatype Func = Func(depth: nat, tailCall: bool, changed: bool, callees: seq<nat>, walk: seq<nat>)
  type Graph = seq<Func>

  predicate GraphOk(g: Graph) {
    forall i | 0 <= i < |g| ::
      (forall k | 0 <= k < |g[i].callees| :: g[i].callees[k] < |g|) &&
      (forall k | 0 <= k < |g[i].walk| :: g[i].walk[k] in g[i].callees) &&
      (forall k | 0 <= k < |g[i].callees| :: g[i].callees[k] in g[i].walk)
  }

  predicate Edge(g: Graph, i: nat, j: nat) {
    i < |g| && j in g[i].callees
  }

  /** A chain of calls. */
  predicate IsPath(g: Graph, p: seq<nat>) {
    p != [] && (forall k | 0 <= k < |p| :: p[k] < |g|) && forall k | 0 <= k < |p| - 1 :: Edge(g, p[k], p[k + 1])
  }

  ghost predicate Cyclic(g: Graph) {
    exists p: seq<nat> :: IsPath(g, p) && |p| > 1 && p[0] == p[|p| - 1]
  }

  // ---------------------------------------------------------------- topological order

  /** Callers come before the functions they call, and every function appears once. */
  ghost predicate IsTopological(g: Graph, order: seq<nat>) {
    |order| == |g| && (forall k | 0 <= k < |order| :: order[k] < |g|) &&
    (forall j, k | 0 <= j < k < |order| :: order[j] != order[k]) &&
    (forall i | 0 <= i < |g| :: i in order) &&
    (forall j, k | 0 <= j < |order| && 0 <= k < |order| && Edge(g, order[j], order[k]) :: j < k)
  }

  ghost function Place(order: seq<nat>, i: nat): (k: nat)
    requires i in order
    ensures k < |order| && order[k] == i
  {
    var k :| 0 <= k < |order| && order[k] == i;
    k
  }

  lemma {:induction false} PathClimbs(g: Graph, order: seq<nat>, p: seq<nat>)
    requires IsTopological(g, order) && IsPath(g, p)
    ensures Place(order, p[0]) + |p| - 1 <= Place(order, p[|p| - 1])
    decreases |p|
  {
    if |p| > 1 {
      var q := p[..|p| - 1];
      assert IsPath(g, q) by {
        forall k | 0 <= k < |q| - 1 ensures Edge(g, q[k], q[k + 1]) { assert Edge(g, p[k], p[k + 1]); }
      }
      PathClimbs(g, order, q);
      assert Edge(g, p[|p| - 2], p[|p| - 1]);
      assert Edge(g, order[Place(order, p[|p| - 2])], order[Place(order, p[|p| - 1])]);
    }
  }

  lemma {:induction false} OrderedIsAcyclic(g: Graph, order: seq<nat>)
    requires IsTopological(g, order)
    ensures !Cyclic(g)
  {
    forall p: seq<nat> | IsPath(g, p) && |p| > 1
      ensures p[0] != p[|p| - 1]
    {
      PathClimbs(g, order, p);
    }
  }

  datatype Mark = White | Open | Done

  ghost function CountWhite(marks: seq<Mark>): nat {
    if marks == [] then 0 else CountWhite(marks[..|marks| - 1]) + (if marks[|marks| - 1].White? then 1 else 0)
  }

  lemma {:induction false} WhiteDrops(marks: seq<Mark>, i: nat, m: Mark)
    requires i < |marks|
    ensures CountWhite(marks[i := m]) == CountWhite(marks) - (if marks[i].White? then 1 else 0) + (if m.White? then 1 else 0)
    decreases |marks|
  {
    var n := |marks| - 1;
    if i == n {
      assert marks[i := m][..n] == marks[..n];
    } else {
      WhiteDrops(marks[..n], i, m);
      assert marks[i := m][..n] == marks[..n][i := m];
    }
  }

  /** Fewer white marks when marks only leave white. */
  lemma {:induction false} WhiteMonotone(a: seq<Mark>, b: seq<Mark>)
    requires |a| == |b| && forall k | 0 <= k < |a| :: b[k].White? ==> a[k].White?
    ensures CountWhite(b) <= CountWhite(a)
    decreases |a|
  {
    if a != [] {
      WhiteMonotone(a[..|a| - 1], b[..|b| - 1]);
    }
  }

  /** Everything `v` calls comes before position `k`. */
  ghost predicate CalleesBefore(g: Graph, post: seq<nat>, v: nat, k: nat)
    requires v < |g| && k <= |post|
  {
    forall c | c in g[v].callees :: c in post[..k]
  }

  /** The state of the depth-first walk: open functions form the path being explored, and each finished
      function follows everything it calls. */
  ghost predicate Walking(g: Graph, marks: seq<Mark>, post: seq<nat>, stack: seq<nat>) {
    GraphOk(g) && |marks| == |g| && (stack == [] || IsPath(g, stack)) &&
    (forall v | 0 <= v < |g| :: marks[v].Open? <==> v in stack) &&
    (forall v | 0 <= v < |g| :: marks[v].Done? <==> v in post) &&
    (forall k | 0 <= k < |post| :: post[k] < |g|) &&
    (forall j, k | 0 <= j < k < |post| :: post[j] != post[k]) &&
    (forall k | 0 <= k < |post| :: CalleesBefore(g, post, post[k], k))
  }

  lemma {:induction false} BackEdgeIsCycle(g: Graph, stack: seq<nat>, i: nat)
    requires IsPath(g, stack) && i in stack && Edge(g, stack[|stack| - 1], i) && i < |g|
    ensures Cyclic(g)
  {
    var k :| 0 <= k < |stack| && stack[k] == i;
    var p := stack[k..] + [i];
    forall m | 0 <= m < |p| - 1
      ensures Edge(g, p[m], p[m + 1])
    {
      if m < |p| - 2 {
        assert Edge(g, stack[k + m], stack[k + m + 1]);
      }
    }
    assert IsPath(g, p) && p[0] == p[|p| - 1];
  }

  lemma {:induction false} Pushed(g: Graph, stack: seq<nat>, i: nat)
    requires i < |g| && (stack == [] || (IsPath(g, stack) && Edge(g, stack[|stack| - 1], i)))
    ensures IsPath(g, stack + [i])
  {
    var p := stack + [i];
    forall k | 0 <= k < |p| - 1
      ensures Edge(g, p[k], p[k + 1])
    {
      if k < |stack| - 1 {
        assert Edge(g, stack[k], stack[k + 1]);
      }
    }
  }

  lemma {:induction false} Opening(g: Graph, marks: seq<Mark>, post: seq<nat>, stack: seq<nat>, i: nat)
    requires Walking(g, marks, post, stack) && i < |g| && marks[i].White?
    requires stack == [] || Edge(g, stack[|stack| - 1], i)
    ensures Walking(g, marks[i := Open], post, stack + [i]) && CountWhite(marks[i := Open]) < CountWhite(marks)
  {
    WhiteDrops(marks, i, Open);
    Pushed(g, stack, i);
  }

  lemma {:induction false} Closing(g: Graph, marks: seq<Mark>, post: seq<nat>, stack: seq<nat>, i: nat)
    requires i < |g| && Walking(g, marks, post, stack + [i]) && i !in stack
    requires stack == [] || IsPath(g, stack)
    requires forall c | c in g[i].callees :: c in post
    ensures Walking(g, marks[i := Done], post + [i], stack)
  {
    var post' := post + [i];
    assert marks[i].Open?;
    forall k | 0 <= k < |post'|
      ensures CalleesBefore(g, post', post'[k], k)
    {
      if k < |post| {
        assert CalleesBefore(g, post, post[k], k);
        assert post'[..k] == post[..k];
      } else {
        assert post'[..k] == post;
      }
    }
  }

  /** Marks only leave white and the finished list only grows. */
  ghost predicate Onward(marks: seq<Mark>, post: seq<nat>, marks': seq<Mark>, post': seq<nat>) {
    |marks| == |marks'| && |post| <= |post'| && post'[..|post|] == post &&
    forall k | 0 <= k < |marks| :: marks'[k].White? ==> marks[k].White?
  }

  lemma {:induction false} OnwardKeeps(marks: seq<Mark>, post: seq<nat>, marks': seq<Mark>, post': seq<nat>)
    requires Onward(marks, post, marks', post')
    ensures CountWhite(marks') <= CountWhite(marks)
    ensures forall v | v in post :: v in post'
  {
    WhiteMonotone(marks, marks');
    forall v | v in post ensures v in post' { assert v in post'[..|post|]; }
  }

  /** The recursive visit; false when it meets a function that is still open. */
  method Visit(g: Graph, i: nat, marks: array<Mark>, post: seq<nat>, ghost stack: seq<nat>) returns (ok: bool, post': seq<nat>)
    requires Walking(g, marks[..], post, stack) && i < |g|
    requires stack == [] || Edge(g, stack[|stack| - 1], i)
    modifies marks
    ensures !ok ==> Cyclic(g)
    ensures ok ==> Walking(g, marks[..], post', stack) && i in post' && Onward(old(marks[..]), post, marks[..], post')
    decreases CountWhite(marks[..]), 0
  {
    if marks[i] == Open {
      BackEdgeIsCycle(g, stack, i);
      return false, post;
    }
    if marks[i] == Done {
      return true, post;
    }
    ghost var before := marks[..];
    Opening(g, before, post, stack, i);
    marks[i] := Open;
    assert marks[..] == before[i := Open];
    ok, post' := VisitCallees(g, i, marks, post, stack + [i]);
    if ok {
      Closing(g, marks[..], post', stack, i);
      ghost var closing := marks[..];
      marks[i] := Done;
      assert marks[..] == closing[i := Done];
      post' := post' + [i];
    }
  }

  method VisitCallees(g: Graph, i: nat, marks: array<Mark>, post: seq<nat>, ghost stack: seq<nat>) returns (ok: bool, post': seq<nat>)
    requires Walking(g, marks[..], post, stack) && i < |g| && stack != [] && stack[|stack| - 1] == i
    modifies marks
    ensures !ok ==> Cyclic(g)
    ensures ok ==> Walking(g, marks[..], post', stack) && Onward(old(marks[..]), post, marks[..], post')
    ensures ok ==> forall c | c in g[i].callees :: c in post'
    decreases CountWhite(marks[..]), 1
  {
    ok, post' := true, post;
    for k := 0 to |g[i].callees|
      invariant Walking(g, marks[..], post', stack) && Onward(old(marks[..]), post, marks[..], post')
      invariant Finished(g[i].callees, k, post')
    {
      ghost var was, done := marks[..], post';
      OnwardKeeps(old(marks[..]), post, was, done);
      ok, post' := Visit(g, g[i].callees[k], marks, post', stack);
      if !ok {
        return;
      }
      OnwardOn(old(marks[..]), post, was, done, marks[..], post', g[i].callees, k);
    }
    ok := true;
  }

  /** The first `k` of `callees` are finished. */
  ghost predicate Finished(callees: seq<nat>, k: nat, post: seq<nat>)
    requires k <= |callees|
  {
    forall m | 0 <= m < k :: callees[m] in post
  }

  lemma {:induction false} OnwardOn(marks: seq<Mark>, post: seq<nat>, marks': seq<Mark>, post': seq<nat>, marks'': seq<Mark>, post'': seq<nat>, callees: seq<nat>, k: nat)
    requires Onward(marks, post, marks', post') && Onward(marks', post', marks'', post'') && k < |callees| && Finished(callees, k, post') && callees[k] in post''
    ensures Onward(marks, post, marks'', post'') && Finished(callees, k + 1, post'')
  {
    OnwardKeeps(marks', post', marks'', post'');
    assert post''[..|post|] == post''[..|post'|][..|post|];
  }

  /** Callers first, or a refusal: refused exactly when some chain of calls comes back to where it started. */
  method TopoOrder(g: Graph) returns (ok: bool, order: seq<nat>)
    requires GraphOk(g)
    ensures ok ==> IsTopological(g, order)
    ensures ok <==> !Cyclic(g)
  {
    var marks := new Mark[|g|](_ => White);
    var post: seq<nat> := [];
    order := [];
    for i := 0 to |g|
      invariant Walking(g, marks[..], post, [])
      invariant forall m | 0 <= m < i :: m in post
    {
      ghost var was, done := marks[..], post;
      ok, post := Visit(g, i, marks, post, []);
      if !ok {
        return;
      }
      OnwardKeeps(was, done, marks[..], post);
    }
    order := Reverse(post);
    ok := true;
    ReversedIsTopological(g, marks[..], post, order);
    OrderedIsAcyclic(g, order);
  }

  method Reverse(s: seq<nat>) returns (r: seq<nat>)
    ensures |r| == |s| && forall k | 0 <= k < |s| :: r[k] == s[|s| - 1 - k]
  {
    var a := new nat[|s|](k requires 0 <= k < |s| => s[k]);
    var i, j := 0, |s| - 1;
    while i < j
      invariant 0 <= i && i + j == |s| - 1
      invariant forall k | i <= k <= j :: a[k] == s[k]
      invariant forall k | 0 <= k < |s| && !(i <= k <= j) :: a[k] == s[|s| - 1 - k]
    {
      a[i], a[j] := a[j], a[i];
      i, j := i + 1, j - 1;
    }
    r := a[..];
  }

  lemma {:induction false} AllDistinct(post: seq<nat>, n: nat)
    requires (forall k | 0 <= k < |post| :: post[k] < n) && (forall j, k | 0 <= j < k < |post| :: post[j] != post[k])
    requires forall m | 0 <= m < n :: m in post
    ensures |post| == n
    decreases n
  {
    if n == 0 {
      if post != [] {
        assert false;
      }
    } else {
      assert n - 1 in post;
      var k :| 0 <= k < |post| && post[k] == n - 1;
      var rest := post[..k] + post[k + 1..];
      forall m | 0 <= m < n - 1
        ensures m in rest
      {
        assert m in post;
        var j :| 0 <= j < |post| && post[j] == m;
        assert rest[if j < k then j else j - 1] == m;
      }
      AllDistinct(rest, n - 1);
    }
  }

  lemma {:induction false} ReversedIsTopological(g: Graph, marks: seq<Mark>, post: seq<nat>, order: seq<nat>)
    requires Walking(g, marks, post, []) && (forall m | 0 <= m < |g| :: m in post)
    requires |order| == |post| && forall k | 0 <= k < |post| :: order[k] == post[|post| - 1 - k]
    ensures IsTopological(g, order)
  {
    AllDistinct(post, |g|);
    var n := |post|;
    forall i | 0 <= i < |g|
      ensures i in order
    {
      assert i in post;
      var k :| 0 <= k < n && post[k] == i;
      assert order[n - 1 - k] == i;
    }
    forall j, k | 0 <= j < n && 0 <= k < n && Edge(g, order[j], order[k])
      ensures j < k
    {
      var a, b := n - 1 - j, n - 1 - k;
      assert CalleesBefore(g, post, post[a], a);
      var c :| 0 <= c < a && post[c] == post[b];
    }
  }
}
