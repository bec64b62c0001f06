/** The kernel's stack limits over every call chain, computed by one pass over the call graph instead of
    enumerating chains. */
module StackDepth {
  import opened CallGraph

  const MAX_CALLER_DEPTH := 256
  const MAX_COMBINED_STACK := 512
  const MAX_CALL_FRAMES := 8

  function Round32(n: nat): nat {
    ((if n < 1 then 1 else n) + 31) / 32 * 32
  }

  function Round16(n: nat): nat {
    (n + 15) / 16 * 16
  }

  /** Each is the least multiple that holds the frame; under the first an empty frame still takes one unit. */
  lemma {:induction false} RoundsUp(n: nat)
    ensures Round32(n) % 32 == 0 && n <= Round32(n) && 32 <= Round32(n) && (Round32(n) > 32 ==> Round32(n) - 32 < n)
    ensures Round16(n) % 16 == 0 && n <= Round16(n) < n + 16
  {
  }

  // ---------------------------------------------------------------- chains, by definition

  /** Rounded frame bytes of the callers on a chain, its last function excluded. */
  ghost function Bytes(g: Graph, round: nat -> nat, p: seq<nat>): nat
    requires IsPath(g, p)
    decreases |p|
  {
    if |p| == 1 then 0 else CutPath(g, p); Bytes(g, round, p[..|p| - 1]) + round(g[p[|p| - 2]].depth)
  }

  lemma {:induction false} CutPath(g: Graph, p: seq<nat>)
    requires IsPath(g, p) && |p| > 1
    ensures IsPath(g, p[..|p| - 1]) && Edge(g, p[|p| - 2], p[|p| - 1])
  {
    var q := p[..|p| - 1];
    forall k | 0 <= k < |q| - 1 ensures Edge(g, q[k], q[k + 1]) { assert Edge(g, p[k], p[k + 1]); }
    assert Edge(g, p[|p| - 2], p[|p| - 2 + 1]);
  }

  /** A chain through a changed caller. */
  ghost predicate ThroughChanged(g: Graph, p: seq<nat>)
    requires IsPath(g, p)
  {
    exists k | 0 <= k < |p| - 1 :: g[p[k]].changed
  }

  datatype Kind = AnyChain | ChangedChain

  ghost predicate ChainTo(g: Graph, kind: Kind, i: nat, p: seq<nat>) {
    IsPath(g, p) && p[|p| - 1] == i && (kind.ChangedChain? ==> ThroughChanged(g, p))
  }

  // ---------------------------------------------------------------- chains, as computed

  /** One chain above a function: its totals, the direct caller it ends with (-1 at a root), and which of that
      caller's chains it extends. */
  datatype Chain = Chain(bytes: nat, frames: nat, caller: int, from: Kind)

  /** The longest chains by bytes and by frames, or none. */
  datatype Chains = Chains(found: bool, byBytes: Chain, byFrames: Chain)

  datatype Reach = Reach(any: Chains, changed: Chains) {
    function Of(kind: Kind): Chains {
      if kind.AnyChain? then any else changed
    }
  }

  const NO_CHAIN := Chain(0, 0, -1, AnyChain)

  function Grow(c: Chain, kind: Kind, caller: nat, bytes: nat): Chain {
    Chain(c.bytes + bytes, c.frames + 1, caller, kind)
  }

  /** Adds `caller` to `from`'s chains and keeps whichever is longer; ties keep the earlier caller. */
  function Extend(cc: Chains, from: Chains, kind: Kind, caller: nat, bytes: nat): Chains {
    if !from.found then cc
    else
      var b, f := Grow(from.byBytes, kind, caller, bytes), Grow(from.byFrames, kind, caller, bytes);
      Chains(true,
             if !cc.found || b.bytes > cc.byBytes.bytes then b else cc.byBytes,
             if !cc.found || f.frames > cc.byFrames.frames then f else cc.byFrames)
  }

  /** What one `extend` keeps: the longer chain, the earlier one on a tie. */
  lemma {:induction false} TiesStay(cc: Chains, from: Chains, kind: Kind, caller: nat, bytes: nat)
    ensures var r := Extend(cc, from, kind, caller, bytes);
      if !from.found then r == cc
      else
        r.found &&
        r.byBytes == (if cc.found && from.byBytes.bytes + bytes <= cc.byBytes.bytes then cc.byBytes
                      else Chain(from.byBytes.bytes + bytes, from.byBytes.frames + 1, caller, kind)) &&
        r.byFrames == (if cc.found && from.byFrames.frames < cc.byFrames.frames then cc.byFrames
                       else Chain(from.byFrames.bytes + bytes, from.byFrames.frames + 1, caller, kind))
  {
  }

  /** Below a changed function every chain counts as changed. */
  function PassKind(f: Func): Kind {
    if f.changed then AnyChain else ChangedChain
  }

  // ---------------------------------------------------------------- what the pass establishes

  /** `cc` is at least as long as `from` grown by one caller. */
  ghost predicate Covers(cc: Chains, from: Chains, bytes: nat) {
    from.found ==> cc.found && from.byBytes.bytes + bytes <= cc.byBytes.bytes && from.byFrames.frames + 1 <= cc.byFrames.frames
  }

  /** `c`, a chain of kind `kind` to `i`, is empty, or is one caller's own best chain grown by that caller. */
  ghost predicate Backed(g: Graph, round: nat -> nat, reach: seq<Reach>, i: nat, kind: Kind, c: Chain, byFrames: bool)
    requires |reach| == |g| && i < |g|
  {
    if c.caller < 0 then kind.AnyChain? && c.bytes == 0 && c.frames == 0
    else
      c.caller < |g| && Edge(g, c.caller, i) &&
      (kind.ChangedChain? ==> c.from == PassKind(g[c.caller])) && (kind.AnyChain? ==> c.from.AnyChain?) &&
      var up := reach[c.caller].Of(c.from);
      up.found &&
      if byFrames then c.frames == up.byFrames.frames + 1
      else c.bytes == up.byBytes.bytes + round(g[c.caller].depth)
  }

  ghost predicate BackedAt(g: Graph, round: nat -> nat, reach: seq<Reach>, i: nat)
    requires |reach| == |g| && i < |g|
  {
    reach[i].any.found &&
    (forall kind: Kind :: reach[i].Of(kind).found ==>
      Backed(g, round, reach, i, kind, reach[i].Of(kind).byBytes, false) &&
      Backed(g, round, reach, i, kind, reach[i].Of(kind).byFrames, true))
  }

  ghost predicate CoversEdge(g: Graph, round: nat -> nat, reach: seq<Reach>, i: nat, c: nat)
    requires |reach| == |g| && i < |g| && c < |g|
  {
    Covers(reach[c].any, reach[i].any, round(g[i].depth)) &&
    Covers(reach[c].changed, reach[i].Of(PassKind(g[i])), round(g[i].depth))
  }

  /** Every caller of `c` ranks before it. */
  ghost predicate RankedAt(g: Graph, rank: seq<nat>, c: nat)
    requires |rank| == |g| && c < |g|
  {
    forall i: nat | i < |g| && Edge(g, i, c) :: rank[i] < rank[c]
  }

  ghost predicate Ranked(g: Graph, rank: seq<nat>) {
    |rank| == |g| && forall c | 0 <= c < |g| :: RankedAt(g, rank, c)
  }

  lemma {:induction false} OrderRanks(g: Graph, order: seq<nat>) returns (rank: seq<nat>)
    requires IsTopological(g, order)
    ensures Ranked(g, rank)
  {
    rank := seq(|g|, i requires 0 <= i < |g| => Place(order, i));
    forall i: nat, c: nat | i < |g| && c < |g| && Edge(g, i, c)
      ensures rank[i] < rank[c]
    {
      assert Edge(g, order[Place(order, i)], order[Place(order, c)]);
    }
  }

  /** The pass is complete: every edge is covered and every chain is backed. */
  ghost predicate Solved(g: Graph, round: nat -> nat, rank: seq<nat>, reach: seq<Reach>) {
    |reach| == |g| && Ranked(g, rank) &&
    (forall i | 0 <= i < |g| :: BackedAt(g, round, reach, i)) &&
    (forall i: nat, c: nat | i < |g| && c < |g| && Edge(g, i, c) :: CoversEdge(g, round, reach, i, c))
  }

  // ---------------------------------------------------------------- it equals the enumeration

  lemma {:induction false} NoChainIsLonger(g: Graph, round: nat -> nat, rank: seq<nat>, reach: seq<Reach>, p: seq<nat>)
    requires Solved(g, round, rank, reach) && IsPath(g, p)
    ensures var r := reach[p[|p| - 1]];
      r.any.found && Bytes(g, round, p) <= r.any.byBytes.bytes && |p| - 1 <= r.any.byFrames.frames
    ensures var r := reach[p[|p| - 1]];
      ThroughChanged(g, p) ==> r.changed.found && Bytes(g, round, p) <= r.changed.byBytes.bytes && |p| - 1 <= r.changed.byFrames.frames
    decreases |p|
  {
    assert BackedAt(g, round, reach, p[|p| - 1]);
    if |p| > 1 {
      CutPath(g, p);
      var q, i, c := p[..|p| - 1], p[|p| - 2], p[|p| - 1];
      NoChainIsLonger(g, round, rank, reach, q);
      assert CoversEdge(g, round, reach, i, c);
      if ThroughChanged(g, p) && !g[i].changed {
        var k :| 0 <= k < |p| - 1 && g[p[k]].changed;
        assert q[k] == p[k] && k < |q| - 1;
        assert ThroughChanged(g, q);
      }
    }
  }

  lemma {:induction false} CallerEarlier(g: Graph, rank: seq<nat>, caller: nat, i: nat)
    requires Ranked(g, rank) && caller < |g| && i < |g| && Edge(g, caller, i)
    ensures rank[caller] < rank[i]
  {
    assert RankedAt(g, rank, i);
  }

  /** Spelling a reported chain out, root first, the way `names` does. */
  ghost function Spell(g: Graph, round: nat -> nat, rank: seq<nat>, reach: seq<Reach>, i: nat, kind: Kind, byFrames: bool): seq<nat>
    requires Solved(g, round, rank, reach) && i < |g| && reach[i].Of(kind).found
    decreases rank[i]
  {
    assert BackedAt(g, round, reach, i);
    var c := if byFrames then reach[i].Of(kind).byFrames else reach[i].Of(kind).byBytes;
    if c.caller < 0 then [i]
    else
      CallerEarlier(g, rank, c.caller, i);
      Spell(g, round, rank, reach, c.caller, c.from, byFrames) + [i]
  }

  /** A chain to a caller is a chain to what it calls. */
  lemma {:induction false} ChainGrows(g: Graph, round: nat -> nat, q: seq<nat>, caller: nat, from: Kind, i: nat, kind: Kind)
    requires ChainTo(g, from, caller, q) && i < |g| && Edge(g, caller, i)
    requires kind.ChangedChain? ==> from == PassKind(g[caller])
    ensures ChainTo(g, kind, i, q + [i]) && Bytes(g, round, q + [i]) == Bytes(g, round, q) + round(g[caller].depth)
  {
    var p := q + [i];
    Pushed(g, q, i);
    assert p[..|p| - 1] == q;
    if kind.ChangedChain? {
      if g[caller].changed {
        assert g[p[|p| - 2]].changed;
      } else {
        var k :| 0 <= k < |q| - 1 && g[q[k]].changed;
        assert p[k] == q[k];
      }
    }
  }

  /** The spelled chain is a real chain of its kind with exactly the reported total. */
  lemma {:induction false} SpellsRealChain(g: Graph, round: nat -> nat, rank: seq<nat>, reach: seq<Reach>, i: nat, kind: Kind, byFrames: bool)
    requires Solved(g, round, rank, reach) && i < |g| && reach[i].Of(kind).found
    ensures var p := Spell(g, round, rank, reach, i, kind, byFrames);
      ChainTo(g, kind, i, p) &&
      (byFrames ==> |p| - 1 == reach[i].Of(kind).byFrames.frames) &&
      (!byFrames ==> Bytes(g, round, p) == reach[i].Of(kind).byBytes.bytes)
    decreases rank[i]
  {
    assert BackedAt(g, round, reach, i);
    var c := if byFrames then reach[i].Of(kind).byFrames else reach[i].Of(kind).byBytes;
    assert Backed(g, round, reach, i, kind, c, byFrames);
    if c.caller >= 0 {
      CallerEarlier(g, rank, c.caller, i);
      SpellsRealChain(g, round, rank, reach, c.caller, c.from, byFrames);
      ChainGrows(g, round, Spell(g, round, rank, reach, c.caller, c.from, byFrames), c.caller, c.from, i, kind);
    }
  }

  /** The dynamic program equals path enumeration: per function and kind, a chain is found exactly when one
      exists, and the reported bytes and frames are the maxima over all of them, attained by spelled chains. */
  lemma {:induction false} ReachIsMaximum(g: Graph, round: nat -> nat, rank: seq<nat>, reach: seq<Reach>, i: nat, kind: Kind)
    requires Solved(g, round, rank, reach) && i < |g|
    ensures reach[i].Of(kind).found <==> exists p: seq<nat> :: ChainTo(g, kind, i, p)
    ensures forall p: seq<nat> | ChainTo(g, kind, i, p) ::
      Bytes(g, round, p) <= reach[i].Of(kind).byBytes.bytes && |p| - 1 <= reach[i].Of(kind).byFrames.frames
    ensures reach[i].Of(kind).found ==> exists p: seq<nat> ::
      ChainTo(g, kind, i, p) && Bytes(g, round, p) == reach[i].Of(kind).byBytes.bytes
    ensures reach[i].Of(kind).found ==> exists p: seq<nat> ::
      ChainTo(g, kind, i, p) && |p| - 1 == reach[i].Of(kind).byFrames.frames
  {
    forall p: seq<nat> | ChainTo(g, kind, i, p)
      ensures reach[i].Of(kind).found &&
        Bytes(g, round, p) <= reach[i].Of(kind).byBytes.bytes && |p| - 1 <= reach[i].Of(kind).byFrames.frames
    {
      NoChainIsLonger(g, round, rank, reach, p);
    }
    if reach[i].Of(kind).found {
      SpellsRealChain(g, round, rank, reach, i, kind, false);
      SpellsRealChain(g, round, rank, reach, i, kind, true);
      assert ChainTo(g, kind, i, Spell(g, round, rank, reach, i, kind, false));
    }
  }

  // ---------------------------------------------------------------- the pass

  /** The chain's caller, if any, has been processed. */
  ghost predicate From(done: seq<nat>, c: Chain) {
    c.caller < 0 || c.caller in done
  }

  ghost predicate AllFrom(done: seq<nat>, r: Reach) {
    From(done, r.any.byBytes) && From(done, r.any.byFrames) &&
    (r.changed.found ==> From(done, r.changed.byBytes) && From(done, r.changed.byFrames))
  }

  /** The pass with the callers `done` fully processed: their reach is final, because whatever calls them comes
      even earlier. */
  ghost predicate Passing(g: Graph, round: nat -> nat, reach: seq<Reach>, done: seq<nat>) {
    |reach| == |g| && forall j | 0 <= j < |g| :: BackedAt(g, round, reach, j) && AllFrom(done, reach[j])
  }

  /** One `extend` of both kinds. */
  function Extended(g: Graph, round: nat -> nat, reach: seq<Reach>, i: nat, c: nat): Reach
    requires |reach| == |g| && i < |g| && c < |g|
  {
    var pass := PassKind(g[i]);
    Reach(Extend(reach[c].any, reach[i].any, AnyChain, i, round(g[i].depth)),
          Extend(reach[c].changed, reach[i].Of(pass), pass, i, round(g[i].depth)))
  }

  lemma {:induction false} ExtendKeeps(g: Graph, round: nat -> nat, reach: seq<Reach>, done: seq<nat>, i: nat, c: nat)
    requires Passing(g, round, reach, done) && i < |g| && c < |g| && Edge(g, i, c) && i in done && c !in done
    ensures var reach' := reach[c := Extended(g, round, reach, i, c)];
      Passing(g, round, reach', done) && CoversEdge(g, round, reach', i, c)
  {
    var reach' := reach[c := Extended(g, round, reach, i, c)];
    forall j | 0 <= j < |g|
      ensures BackedAt(g, round, reach', j) && AllFrom(done, reach'[j])
    {
      assert BackedAt(g, round, reach, j) && AllFrom(done, reach[j]);
      if j == c {
        forall kind: Kind | reach'[c].Of(kind).found
          ensures Backed(g, round, reach', c, kind, reach'[c].Of(kind).byBytes, false)
          ensures Backed(g, round, reach', c, kind, reach'[c].Of(kind).byFrames, true)
        {
          BackedGrows(g, round, reach, done, i, c, kind);
        }
      } else {
        forall kind: Kind | reach'[j].Of(kind).found
          ensures Backed(g, round, reach', j, kind, reach'[j].Of(kind).byBytes, false)
          ensures Backed(g, round, reach', j, kind, reach'[j].Of(kind).byFrames, true)
        {
          assert Backed(g, round, reach, j, kind, reach[j].Of(kind).byBytes, false);
        }
      }
    }
  }

  lemma {:induction false} BackedGrows(g: Graph, round: nat -> nat, reach: seq<Reach>, done: seq<nat>, i: nat, c: nat, kind: Kind)
    requires Passing(g, round, reach, done) && i < |g| && c < |g| && Edge(g, i, c) && i in done && c !in done
    ensures var reach' := reach[c := Extended(g, round, reach, i, c)];
      reach'[c].Of(kind).found ==>
        Backed(g, round, reach', c, kind, reach'[c].Of(kind).byBytes, false) &&
        Backed(g, round, reach', c, kind, reach'[c].Of(kind).byFrames, true) &&
        From(done, reach'[c].Of(kind).byBytes) && From(done, reach'[c].Of(kind).byFrames)
  {
    assert BackedAt(g, round, reach, c) && AllFrom(done, reach[c]);
    if reach[c].Of(kind).found {
      BackedStays(g, round, reach, done, i, c, kind, false);
      BackedStays(g, round, reach, done, i, c, kind, true);
    }
  }

  /** A backing caller that is done is not the function being extended. */
  lemma {:induction false} BackedStays(g: Graph, round: nat -> nat, reach: seq<Reach>, done: seq<nat>, i: nat, c: nat, kind: Kind, byFrames: bool)
    requires Passing(g, round, reach, done) && i < |g| && c < |g| && c !in done && reach[c].Of(kind).found
    ensures var cc := reach[c].Of(kind);
      Backed(g, round, reach[c := Extended(g, round, reach, i, c)], c, kind, if byFrames then cc.byFrames else cc.byBytes, byFrames)
  {
    assert BackedAt(g, round, reach, c) && AllFrom(done, reach[c]);
    var cc := reach[c].Of(kind);
    assert Backed(g, round, reach, c, kind, if byFrames then cc.byFrames else cc.byBytes, byFrames);
  }

  /** Covering is kept when the callee grows and the caller does not change. */
  lemma {:induction false} CoverStays(g: Graph, round: nat -> nat, reach: seq<Reach>, i: nat, c: nat, j: nat, k: nat)
    requires |reach| == |g| && i < |g| && c < |g| && j < |g| && k < |g| && j != c
    requires CoversEdge(g, round, reach, j, k)
    ensures CoversEdge(g, round, reach[c := Extended(g, round, reach, i, c)], j, k)
  {
  }

  ghost predicate EdgesCovered(g: Graph, round: nat -> nat, reach: seq<Reach>, done: seq<nat>)
    requires |reach| == |g|
  {
    forall i: nat, c: nat | i in done && i < |g| && c < |g| && Edge(g, i, c) :: CoversEdge(g, round, reach, i, c)
  }

  /** All chains of one caller are passed on to its callees. */
  method PassOn(g: Graph, round: nat -> nat, reach: seq<Reach>, i: nat, ghost done: seq<nat>) returns (r: seq<Reach>)
    requires GraphOk(g) && i < |g| && i !in done
    requires Passing(g, round, reach, done) && EdgesCovered(g, round, reach, done)
    requires forall c | c in g[i].callees :: c !in done && c != i
    ensures Passing(g, round, r, done + [i]) && EdgesCovered(g, round, r, done + [i])
  {
    r := reach;
    ghost var done' := done + [i];
    for k := 0 to |g[i].callees|
      invariant Passing(g, round, r, done') && EdgesCovered(g, round, r, done)
      invariant forall m | 0 <= m < k :: CoversEdge(g, round, r, i, g[i].callees[m])
    {
      var c := g[i].callees[k];
      ExtendKeeps(g, round, r, done', i, c);
      forall j: nat, e: nat | j in done' && j < |g| && e < |g| && Edge(g, j, e) && CoversEdge(g, round, r, j, e)
        ensures CoversEdge(g, round, r[c := Extended(g, round, r, i, c)], j, e)
      {
        CoverStays(g, round, r, i, c, j, e);
      }
      r := r[c := Extended(g, round, r, i, c)];
    }
  }

  /** The longest chains above every function, or a refusal when the graph is recursive. */
  method StackChains(g: Graph, round: nat -> nat) returns (ok: bool, ghost rank: seq<nat>, reach: seq<Reach>)
    requires GraphOk(g)
    ensures ok <==> !Cyclic(g)
    ensures ok ==> Solved(g, round, rank, reach)
  {
    var order;
    ok, order := TopoOrder(g);
    reach := seq(|g|, _ => Reach(Chains(true, NO_CHAIN, NO_CHAIN), Chains(false, NO_CHAIN, NO_CHAIN)));
    rank := [];
    if !ok {
      return;
    }
    reach := PassAll(g, round, order, reach);
    rank := OrderRanks(g, order);
  }

  method PassAll(g: Graph, round: nat -> nat, order: seq<nat>, start: seq<Reach>) returns (reach: seq<Reach>)
    requires GraphOk(g) && IsTopological(g, order) && Passing(g, round, start, [])
    ensures Passing(g, round, reach, order) && EdgesCovered(g, round, reach, order)
  {
    reach := start;
    for m := 0 to |order|
      invariant Passing(g, round, reach, order[..m]) && EdgesCovered(g, round, reach, order[..m])
    {
      var i := order[m];
      forall c | c in g[i].callees
        ensures c !in order[..m] && c != i
      {
        Later(g, order, m, c);
      }
      reach := PassOn(g, round, reach, i, order[..m]);
      assert order[..m + 1] == order[..m] + [i];
    }
    assert order[..|order|] == order;
  }

  lemma {:induction false} Later(g: Graph, order: seq<nat>, m: nat, c: nat)
    requires GraphOk(g) && IsTopological(g, order) && m < |order| && c in g[order[m]].callees
    ensures c !in order[..m + 1]
  {
    assert c < |g| && c in order;
    var k :| 0 <= k < |order| && order[k] == c;
    assert Edge(g, order[m], order[k]);
  }

  // ---------------------------------------------------------------- the limits

  function BestChain(reach: seq<Reach>, i: nat, kind: Kind, byFrames: bool): Chain
    requires i < |reach|
  {
    if byFrames then reach[i].Of(kind).byFrames else reach[i].Of(kind).byBytes
  }

  /** Following one `caller` link peels the chain's last function off. */
  lemma {:induction false} SpellPeels(g: Graph, round: nat -> nat, rank: seq<nat>, reach: seq<Reach>, i: nat, kind: Kind, byFrames: bool)
    requires Solved(g, round, rank, reach) && i < |g| && reach[i].Of(kind).found
    ensures var c := BestChain(reach, i, kind, byFrames);
      if c.caller < 0 then Spell(g, round, rank, reach, i, kind, byFrames) == [i]
      else
        c.caller < |g| && reach[c.caller].Of(c.from).found && rank[c.caller] < rank[i] &&
        Spell(g, round, rank, reach, i, kind, byFrames) == Spell(g, round, rank, reach, c.caller, c.from, byFrames) + [i]
  {
    var c := BestChain(reach, i, kind, byFrames);
    assert BackedAt(g, round, reach, i);
    assert Backed(g, round, reach, i, kind, c, byFrames);
    if c.caller >= 0 {
      CallerEarlier(g, rank, c.caller, i);
    }
  }

  /** Writes a reported chain out by following `caller` links, root first. */
  method Names(g: Graph, round: nat -> nat, ghost rank: seq<nat>, reach: seq<Reach>, i: nat, kind: Kind, byFrames: bool) returns (p: seq<nat>)
    requires Solved(g, round, rank, reach) && i < |g| && reach[i].Of(kind).found
    ensures p == Spell(g, round, rank, reach, i, kind, byFrames)
  {
    var at: nat, of := i, kind;
    var c := BestChain(reach, i, kind, byFrames);
    p := [i];
    ghost var tail: seq<nat> := [];
    while c.caller >= 0
      invariant at < |g| && reach[at].Of(of).found && c == BestChain(reach, at, of, byFrames) && p == [at] + tail
      invariant Spell(g, round, rank, reach, i, kind, byFrames) == Spell(g, round, rank, reach, at, of, byFrames) + tail
      decreases rank[at]
    {
      SpellPeels(g, round, rank, reach, at, of, byFrames);
      p := [c.caller] + p;
      tail := [at] + tail;
      at, of := c.caller, c.from;
      c := BestChain(reach, at, of, byFrames);
    }
    SpellPeels(g, round, rank, reach, at, of, byFrames);
  }

  datatype Limit = CallerDepth | Combined | Frames
  datatype Broken = Broken(limit: Limit, at: nat, chain: seq<nat>, total: nat)

  /** Chains that count as changed at `i`: all of them when `i` itself changed. */
  function Counted(g: Graph, i: nat): Kind
    requires i < |g|
  {
    if g[i].changed then AnyChain else ChangedChain
  }

  /** The chains to `i` that `limit` is about. */
  function Concerned(g: Graph, limit: Limit, i: nat): Kind
    requires i < |g|
  {
    if limit.CallerDepth? then ChangedChain else Counted(g, i)
  }

  function Total(limit: Limit, bytes: nat, frames: nat, own: nat): nat {
    match limit
    case CallerDepth => bytes
    case Combined => bytes + own
    case Frames => frames + 1
  }

  predicate Past(limit: Limit, total: nat) {
    match limit
    case CallerDepth => total >= MAX_CALLER_DEPTH
    case Combined => total > MAX_COMBINED_STACK
    case Frames => total > MAX_CALL_FRAMES
  }

  /** The rounded frames of all functions of `p` together. */
  ghost function FrameSum(g: Graph, round: nat -> nat, p: seq<nat>): nat
    requires forall k | 0 <= k < |p| :: p[k] < |g|
    decreases |p|
  {
    if p == [] then 0 else FrameSum(g, round, p[..|p| - 1]) + round(g[p[|p| - 1]].depth)
  }

  ghost predicate SomeChanged(g: Graph, p: seq<nat>) {
    exists k | 0 <= k < |p| :: p[k] < |g| && g[p[k]].changed
  }

  /** `b` names a real chain of calls, its real total, and that total is past the kernel's limit: 256 bytes of frames
      above a tail-calling function, 512 bytes of frames in all, 8 frames.  The chain holds a changed function, among
      the callers for the first limit. */
  ghost predicate Evidence(g: Graph, round: nat -> nat, b: Broken) {
    IsPath(g, b.chain) && b.chain[|b.chain| - 1] == b.at &&
    match b.limit
    case CallerDepth =>
      b.at != 0 && g[b.at].tailCall && SomeChanged(g, b.chain[..|b.chain| - 1]) &&
      b.total == FrameSum(g, round, b.chain[..|b.chain| - 1]) && b.total >= 256
    case Combined => SomeChanged(g, b.chain) && b.total == FrameSum(g, round, b.chain) && b.total > 512
    case Frames => SomeChanged(g, b.chain) && b.total == |b.chain| && b.total > 8
  }

  /** The callers' bytes of a chain are the frames of all but its last function. */
  lemma {:induction false} BytesAreFrames(g: Graph, round: nat -> nat, p: seq<nat>)
    requires IsPath(g, p)
    ensures Bytes(g, round, p) == FrameSum(g, round, p[..|p| - 1])
    ensures FrameSum(g, round, p) == Bytes(g, round, p) + round(g[p[|p| - 1]].depth)
    decreases |p|
  {
    if |p| > 1 {
      CutPath(g, p);
      BytesAreFrames(g, round, p[..|p| - 1]);
    }
  }

  lemma {:induction false} ThroughIsSome(g: Graph, p: seq<nat>)
    requires IsPath(g, p)
    ensures ThroughChanged(g, p) <==> SomeChanged(g, p[..|p| - 1])
  {
    var q := p[..|p| - 1];
    if ThroughChanged(g, p) {
      var k :| 0 <= k < |p| - 1 && g[p[k]].changed;
      assert q[k] == p[k];
    }
    if SomeChanged(g, q) {
      var k :| 0 <= k < |q| && q[k] < |g| && g[q[k]].changed;
      assert p[k] == q[k];
    }
  }

  lemma {:induction false} SomeOfLast(g: Graph, p: seq<nat>)
    requires IsPath(g, p)
    ensures SomeChanged(g, p) <==> SomeChanged(g, p[..|p| - 1]) || g[p[|p| - 1]].changed
  {
    var q, n := p[..|p| - 1], |p| - 1;
    if SomeChanged(g, p) && !g[p[n]].changed {
      var k :| 0 <= k < |p| && p[k] < |g| && g[p[k]].changed;
      assert q[k] == p[k];
    }
    if SomeChanged(g, q) {
      var k :| 0 <= k < |q| && q[k] < |g| && g[q[k]].changed;
      assert p[k] == q[k];
    }
  }

  /** Which chains a limit is about, said of the chain itself. */
  lemma {:induction false} ConcernedChains(g: Graph, limit: Limit, p: seq<nat>)
    requires IsPath(g, p)
    ensures ChainTo(g, Concerned(g, limit, p[|p| - 1]), p[|p| - 1], p) <==>
      if limit.CallerDepth? then SomeChanged(g, p[..|p| - 1]) else SomeChanged(g, p)
  {
    ThroughIsSome(g, p);
    SomeOfLast(g, p);
  }

  /** The same, by the totals of the pass. */
  ghost predicate EvidenceByTotals(g: Graph, round: nat -> nat, b: Broken) {
    b.at < |g| && (b.limit.CallerDepth? ==> b.at != 0 && g[b.at].tailCall) &&
    ChainTo(g, Concerned(g, b.limit, b.at), b.at, b.chain) &&
    b.total == Total(b.limit, Bytes(g, round, b.chain), |b.chain| - 1, round(g[b.at].depth)) &&
    Past(b.limit, b.total)
  }

  lemma {:induction false} EvidenceEitherWay(g: Graph, round: nat -> nat, b: Broken)
    ensures Evidence(g, round, b) <==> EvidenceByTotals(g, round, b)
  {
    if IsPath(g, b.chain) && b.chain[|b.chain| - 1] == b.at {
      ConcernedChains(g, b.limit, b.chain);
      BytesAreFrames(g, round, b.chain);
      TotalsAgree(g, b.limit, b.at, Bytes(g, round, b.chain), |b.chain|, round(g[b.at].depth), b.total);
    }
  }

  lemma {:induction false} TotalsAgree(g: Graph, limit: Limit, at: nat, bytes: nat, n: nat, own: nat, total: nat)
    requires n > 0
    ensures total == Total(limit, bytes, n - 1, own) && Past(limit, total) <==>
      match limit
      case CallerDepth => total == bytes && total >= 256
      case Combined => total == bytes + own && total > 512
      case Frames => total == n && total > 8
  {
  }

  /** What the pass tests for one limit at one function. */
  predicate OverLimit(g: Graph, round: nat -> nat, r: Reach, limit: Limit, i: nat)
    requires i < |g|
  {
    var cc := r.Of(Concerned(g, limit, i));
    (limit.CallerDepth? ==> i != 0 && g[i].tailCall) && cc.found &&
    Past(limit, Total(limit, cc.byBytes.bytes, cc.byFrames.frames, round(g[i].depth)))
  }

  /** The test fails to fire only if no chain at all is evidence. */
  lemma {:induction false} WithinLimit(g: Graph, round: nat -> nat, rank: seq<nat>, reach: seq<Reach>, b: Broken)
    requires Solved(g, round, rank, reach) && Evidence(g, round, b)
    ensures OverLimit(g, round, reach[b.at], b.limit, b.at)
  {
    EvidenceEitherWay(g, round, b);
    ReachIsMaximum(g, round, rank, reach, b.at, Concerned(g, b.limit, b.at));
  }

  /** The report for one limit at one function, spelled out. */
  method Report(g: Graph, round: nat -> nat, ghost rank: seq<nat>, reach: seq<Reach>, limit: Limit, i: nat) returns (b: Broken)
    requires Solved(g, round, rank, reach) && i < |g| && OverLimit(g, round, reach[i], limit, i)
    ensures b.limit == limit && b.at == i && Evidence(g, round, b)
  {
    var kind := Concerned(g, limit, i);
    var cc := reach[i].Of(kind);
    var chain := Names(g, round, rank, reach, i, kind, limit.Frames?);
    SpellsRealChain(g, round, rank, reach, i, kind, limit.Frames?);
    b := Broken(limit, i, chain, Total(limit, cc.byBytes.bytes, cc.byFrames.frames, round(g[i].depth)));
    EvidenceEitherWay(g, round, b);
  }

  predicate Reported(broken: seq<Broken>, limit: Limit, i: nat) {
    exists b | b in broken :: b.limit == limit && b.at == i
  }

  /** Every (limit, function) with evidence, among functions below `n`, is reported. */
  ghost predicate Complete(g: Graph, round: nat -> nat, broken: seq<Broken>, n: nat) {
    forall b: Broken | Evidence(g, round, b) && b.at < n :: Reported(broken, b.limit, b.at)
  }

  /** The limits broken at one function. */
  method BrokenAt(g: Graph, round: nat -> nat, ghost rank: seq<nat>, reach: seq<Reach>, i: nat) returns (broken: seq<Broken>)
    requires Solved(g, round, rank, reach) && i < |g|
    ensures forall b | b in broken :: Evidence(g, round, b)
    ensures forall limit: Limit | OverLimit(g, round, reach[i], limit, i) :: Reported(broken, limit, i)
  {
    broken := [];
    if OverLimit(g, round, reach[i], CallerDepth, i) {
      var b := Report(g, round, rank, reach, CallerDepth, i);
      broken := [b];
    }
    ghost var one := broken;
    if OverLimit(g, round, reach[i], Combined, i) {
      var b := Report(g, round, rank, reach, Combined, i);
      broken := broken + [b];
      assert b in broken;
    }
    ghost var two := broken;
    if OverLimit(g, round, reach[i], Frames, i) {
      var b := Report(g, round, rank, reach, Frames, i);
      broken := broken + [b];
      assert b in broken;
    }
    assert forall b | b in one :: b in two;
    assert forall b | b in two :: b in broken;
  }

  /** Nothing is reported exactly when no changed chain breaks a limit; each report is a real chain with its
      real total. */
  method LimitsBroken(g: Graph, round: nat -> nat) returns (ok: bool, broken: seq<Broken>)
    requires GraphOk(g)
    ensures ok <==> !Cyclic(g)
    ensures forall b | b in broken :: Evidence(g, round, b)
    ensures ok ==> Complete(g, round, broken, |g|)
    ensures ok ==> (broken == [] <==> forall b: Broken :: !Evidence(g, round, b))
  {
    ghost var rank;
    var reach;
    ok, rank, reach := StackChains(g, round);
    broken := [];
    if !ok {
      return;
    }
    for i := 0 to |g|
      invariant forall b | b in broken :: Evidence(g, round, b)
      invariant Complete(g, round, broken, i)
    {
      var more := BrokenAt(g, round, rank, reach, i);
      forall b: Broken | Evidence(g, round, b) && b.at < i + 1
        ensures Reported(broken + more, b.limit, b.at)
      {
        if b.at == i {
          WithinLimit(g, round, rank, reach, b);
          var c :| c in more && c.limit == b.limit && c.at == b.at;
          assert c in broken + more;
        } else {
          var c :| c in broken && c.limit == b.limit && c.at == b.at;
          assert c in broken + more;
        }
      }
      broken := broken + more;
    }
    if broken == [] {
      assert forall b: Broken :: Evidence(g, round, b) ==> Reported(broken, b.limit, b.at);
    } else {
      assert broken[0] in broken;
    }
  }
}
