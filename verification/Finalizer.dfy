/** The tag finalizer's bookkeeping: which tags are pending, final, failed, closing or merged, and which
    shard writers are still its to close. */
module Finalizer {

  type Tag = nat
  type Writer = nat

  datatype Option<T> = None | Some(value: T)

  /** What polling a tag's barrier says. */
  datatype Poll = NotReady | Ready | PollError

  /** One tag's entry in every map of the finalizer. */
  datatype Entry = Entry(known: bool, finalized: bool, merged: bool, pending: bool, failed: bool, closing: bool)

  /** All of the finalizer's maps. */
  datatype Maps = Maps(tags: set<Tag>, finalized: set<Tag>, merged: set<Tag>, pending: set<Tag>, failed: set<Tag>, closing: set<Tag>)

  function At(m: Maps, tag: Tag): Entry {
    Entry(tag in m.tags, tag in m.finalized, tag in m.merged, tag in m.pending, tag in m.failed, tag in m.closing)
  }

  predicate MapsOk(m: Maps) {
    m.pending <= m.tags - m.finalized && m.finalized <= m.tags && m.finalized == m.closing + m.merged && m.closing !! m.merged
  }

  lemma {:induction false} MapsByEntry(m: Maps)
    ensures MapsOk(m) <==> forall t: Tag :: EntryOk(At(m, t))
  {
    if MapsOk(m) {
      forall t: Tag ensures EntryOk(At(m, t)) { }
    }
    if forall t: Tag :: EntryOk(At(m, t)) {
      forall t: Tag
        ensures t in m.pending ==> t in m.tags - m.finalized
        ensures t in m.finalized ==> t in m.tags
        ensures t in m.finalized <==> t in m.closing + m.merged
        ensures !(t in m.closing && t in m.merged)
      {
        assert EntryOk(At(m, t));
      }
    }
  }

  /** One tick's effect on one tag: a barrier starts when the tag is no longer in the set union, and only a
      ready poll makes it final. */
  function Ticked(e: Entry, tag: Tag, live: bool, begins: bool, poll: Poll): Entry {
    var e := e.(known := e.known || live);
    if !e.known || tag == 0 || e.finalized || e.failed || (!e.pending && live) then e
    else if !e.pending && !begins then e.(failed := true)
    else
      match poll
      case NotReady => e.(pending := true)
      case PollError => e.(pending := true, failed := true)
      case Ready => e.(pending := false, finalized := true, closing := true)
  }

  /** What every operation keeps: a pending tag is not final yet, and a final tag is waiting for its merge or
      merged, never both. */
  predicate EntryOk(e: Entry) {
    (e.pending ==> e.known && !e.finalized) &&
    (e.finalized ==> e.known) &&
    (e.finalized <==> (e.closing || e.merged)) && !(e.closing && e.merged)
  }

  /** Once failed, a tag never becomes final or merged by a tick; once final, never anything else. */
  lemma {:induction false} TickIsMonotone(e: Entry, tag: Tag, live: bool, begins: bool, poll: Poll)
    requires EntryOk(e)
    ensures var e' := Ticked(e, tag, live, begins, poll);
      EntryOk(e') &&
      (e.failed ==> e' == e.(known := e.known || live)) &&
      (e.finalized ==> e'.finalized && e'.closing == e.closing && e'.merged == e.merged) &&
      (e'.finalized && !e.finalized <==> e'.known && tag != 0 && !e.finalized && !e.failed && (e.pending || !live) && (e.pending || begins) && poll.Ready?)
  {
  }

  /** What a tick does to a tag it may still decide: it fails if its barrier cannot begin or its poll errs, is final and
      closing if its poll is ready, and is pending while it is not; it stays as it was where the tick decides nothing. */
  lemma {:induction false} TickMeans(e: Entry, tag: Tag, live: bool, begins: bool, poll: Poll)
    ensures var e' := Ticked(e, tag, live, begins, poll);
      var open := (e.known || live) && tag != 0 && !e.finalized && !e.failed && (e.pending || !live);
      var polled := open && (e.pending || begins);
      (e'.known <==> e.known || live) && e'.merged == e.merged &&
      (e'.failed <==> e.failed || (open && !polled) || (polled && poll == PollError)) &&
      (e'.finalized <==> e.finalized || (polled && poll == Ready)) && (e'.closing <==> e.closing || (polled && poll == Ready)) &&
      (e'.pending <==> if polled then poll != Ready else e.pending)
  {
  }

  class TagFinalizer {
    const numShards: nat
    var tags: set<Tag>
    var finalized: set<Tag>
    var merged: set<Tag>
    var pending: set<Tag>
    var failed: set<Tag>
    var closing: set<Tag>
    var writers: map<Tag, seq<Option<Writer>>>
    ghost var closed: set<Writer>      // writers this finalizer has closed

    constructor (numShards: nat)
      ensures Valid() && this.numShards == numShards
    {
      this.numShards := numShards;
      tags, finalized, merged, pending, failed, closing := {}, {}, {}, {}, {}, {};
      writers := map[];
      closed := {};
    }

    ghost function View(): Maps
      reads this
    {
      Maps(tags, finalized, merged, pending, failed, closing)
    }

    /** Registered writers are open, and no writer is registered twice. */
    ghost predicate WritersOk()
      reads this
    {
      (forall t | t in writers :: |writers[t]| == numShards) &&
      (forall t, i | t in writers && 0 <= i < numShards && |writers[t]| == numShards && writers[t][i].Some? :: writers[t][i].value !in closed) &&
      (forall t, i, u, j | t in writers && u in writers && 0 <= i < |writers[t]| && 0 <= j < |writers[u]| &&
        writers[t][i].Some? && writers[u][j].Some? && writers[t][i].value == writers[u][j].value :: t == u && i == j)
    }

    ghost predicate Valid()
      reads this
    {
      MapsOk(View()) && WritersOk()
    }

    /** A shard registers the writer it just opened. */
    method Register(tag: Tag, shard: nat, w: Writer)
      requires Valid() && shard < numShards && w !in closed
      requires forall t, i | t in writers && 0 <= i < |writers[t]| :: writers[t][i] != Some(w)
      modifies this`writers
      ensures Valid() && tag in writers && writers[tag][shard] == Some(w)
      ensures forall t | t in old(writers) && t != tag :: t in writers && writers[t] == old(writers)[t]
    {
      var ws := if tag in writers then writers[tag] else seq(numShards, _ => None);
      writers := writers[tag := ws[shard := Some(w)]];
    }

    /** A shard that closed its writer itself takes it out of the registry. */
    method Deregister(tag: Tag, shard: nat)
      requires Valid() && shard < numShards
      modifies this`writers
      ensures Valid()
      ensures tag in old(writers) ==> writers == old(writers)[tag := old(writers)[tag][shard := None]]
      ensures tag !in old(writers) ==> writers == old(writers)
    {
      if tag in writers {
        writers := writers[tag := writers[tag][shard := None]];
      }
    }

    /** One tick's work on one tag. */
    method Tick(tag: Tag, live: bool, begins: bool, poll: Poll)
      requires tag in tags
      modifies this`finalized, this`pending, this`failed, this`closing
      ensures At(View(), tag) == Ticked(old(At(View(), tag)), tag, live, begins, poll)
      ensures forall t: Tag | t != tag :: At(View(), t) == old(At(View(), t))
    {
      if tag == 0 || tag in finalized || tag in failed {
        return;
      }
      if tag !in pending {
        if live {
          return;
        }
        if !begins {
          failed := failed + {tag};
          return;
        }
        pending := pending + {tag};
      }
      match poll {
        case PollError => failed := failed + {tag};
        case NotReady =>
        case Ready =>
          finalized := finalized + {tag};
          pending := pending - {tag};
          closing := closing + {tag};
      }
    }

    /** A whole tick: every known or live tag is treated independently; the result lists, in order, the tags
        whose files may be closed and merged now. */
    method Step(union_: set<Tag>, begins: Tag -> bool, poll: Tag -> Poll) returns (done: seq<Tag>)
      requires Valid()
      modifies this`tags, this`finalized, this`pending, this`failed, this`closing
      ensures Valid()
      ensures forall t: Tag :: At(View(), t) == Ticked(At(old(View()), t), t, t in union_, begins(t), poll(t))
      ensures forall t: Tag :: t in done <==> t in closing && t !in failed
      ensures forall i, j | 0 <= i < j < |done| :: done[i] < done[j]
    {
      ghost var before := View();
      tags := tags + union_;
      var todo := tags;
      while todo != {}
        invariant todo <= tags && tags == before.tags + union_ && merged == before.merged
        invariant forall t: Tag | t !in todo :: At(View(), t) == Ticked(At(before, t), t, t in union_, begins(t), poll(t))
        invariant forall t: Tag | t in todo :: At(View(), t) == At(before, t).(known := true)
      {
        var tag :| tag in todo;
        todo := todo - {tag};
        Tick(tag, tag in union_, begins(tag), poll(tag));
      }
      MapsByEntry(before);
      forall t: Tag
        ensures EntryOk(At(View(), t))
      {
        TickIsMonotone(At(before, t), t, t in union_, begins(t), poll(t));
      }
      MapsByEntry(View());
      done := Sorted(closing - failed);
    }

    /** Marks any tag that has not failed; the maps stay in order exactly when the tag was final. */
    method MarkMerged(tag: Tag)
      requires Valid()
      modifies this`tags, this`merged, this`closing
      ensures WritersOk() && (MapsOk(View()) <==> tag in finalized || tag in failed)
      ensures View() ==
        if tag in failed then old(View()) else old(View()).(tags := old(tags) + {tag}, merged := old(merged) + {tag}, closing := old(closing) - {tag})
    {
      if tag in failed {
        return;
      }
      tags := tags + {tag};
      merged := merged + {tag};
      closing := closing - {tag};
      assert tag in closing + merged;
    }

    /** Closes every writer of `ws`; none of them was closed before. */
    method CloseWriters(ws: seq<Option<Writer>>, closes: Writer -> bool) returns (ok: bool)
      requires forall i | 0 <= i < |ws| && ws[i].Some? :: ws[i].value !in closed
      requires forall i, j | 0 <= i < j < |ws| && ws[i].Some? && ws[j].Some? :: ws[i].value != ws[j].value
      modifies this`closed
      ensures closed == old(closed) + Members(ws)
      ensures ok <==> forall i | 0 <= i < |ws| && ws[i].Some? :: closes(ws[i].value)
    {
      ok := true;
      for k := 0 to |ws|
        invariant closed == old(closed) + Members(ws[..k])
        invariant ok <==> forall i | 0 <= i < k && ws[i].Some? :: closes(ws[i].value)
      {
        assert ws[..k + 1] == ws[..k] + [ws[k]];
        if ws[k].Some? {
          assert ws[k].value !in closed;
          closed := closed + {ws[k].value};
          ok := ok && closes(ws[k].value);
        }
      }
      assert ws[..|ws|] == ws;
    }

    /** Close and merge of an acknowledged tag.  A close error is terminal; a merge error leaves the tag
        closing, to be retried; only success marks it merged.  The maps are out of order only after a success on
        a tag that was not final. */
    method Finalize(tag: Tag, closes: Writer -> bool, merges: bool) returns (ok: bool)
      requires Valid()
      modifies this
      ensures WritersOk() && (MapsOk(View()) <==> tag in old(finalized) || !ok)
      ensures tag in old(failed) ==> !ok && View() == old(View()) && writers == old(writers) && closed == old(closed)
      ensures tag !in old(failed) && tag in old(merged) ==> ok && View() == old(View()) && writers == old(writers)
      ensures tag !in old(failed) && tag !in old(merged) ==>
        tag !in writers &&
        var ws := if tag in old(writers) then old(writers)[tag] else [];
        closed == old(closed) + Members(ws) &&
        if exists i :: 0 <= i < |ws| && ws[i].Some? && !closes(ws[i].value) then !ok && View() == old(View()).(failed := old(failed) + {tag})
        else if !merges then !ok && View() == old(View())
        else ok && View() == old(View()).(tags := old(tags) + {tag}, merged := old(merged) + {tag}, closing := old(closing) - {tag})
    {
      if tag in failed {
        return false;
      }
      if tag in merged {
        return true;
      }
      var ws := if tag in writers then writers[tag] else [];
      writers := writers - {tag};
      var all := CloseWriters(ws, closes);
      assert WritersOk() by {
        assert forall t | t in writers :: t in old(writers) && t != tag && writers[t] == old(writers)[t];
      }
      if !all {
        failed := failed + {tag};
        return false;
      }
      if !merges {
        return false;
      }
      MarkMerged(tag);
      return true;
    }

    /** At the end of a capture: every writer still registered is closed, once, and a tag with a close error is
        failed. */
    method CloseAll(closes: Writer -> bool) returns (ok: bool)
      requires Valid()
      modifies this
      ensures Valid() && writers == map[]
      ensures forall t | t in old(writers) :: Members(old(writers)[t]) <= closed
      ensures forall t: Tag :: t in failed <==> t in old(failed) || (t in old(writers) && !AllClose(old(writers)[t], closes))
      ensures View() == old(View()).(failed := failed)
      ensures ok <==> failed == {}
    {
      while writers != map[]
        invariant Valid() && View() == old(View()).(failed := failed)
        invariant forall t | t in writers :: t in old(writers) && writers[t] == old(writers)[t]
        invariant forall t | t in old(writers) && t !in writers :: Members(old(writers)[t]) <= closed
        invariant forall t: Tag :: t in failed <==> t in old(failed) || (t in old(writers) && t !in writers && !AllClose(old(writers)[t], closes))
        decreases |writers|
      {
        var tag :| tag in writers;
        CloseTag(tag, closes);
      }
      ok := failed == {};
    }

    /** Closes one tag's writers and takes them out of the registry. */
    method CloseTag(tag: Tag, closes: Writer -> bool)
      requires Valid() && tag in writers
      modifies this`writers, this`closed, this`failed
      ensures Valid() && writers == old(writers) - {tag} && |writers| < |old(writers)|
      ensures closed == old(closed) + Members(old(writers)[tag])
      ensures failed == old(failed) + (if AllClose(old(writers)[tag], closes) then {} else {tag})
    {
      var ws := writers[tag];
      writers := writers - {tag};
      assert |writers| < |old(writers)| by {
        assert writers.Keys == old(writers).Keys - {tag};
        assert |writers| == |writers.Keys| && |old(writers)| == |old(writers).Keys|;
      }
      var all := CloseWriters(ws, closes);
      assert WritersOk() by {
        assert forall t | t in writers :: t in old(writers) && t != tag && writers[t] == old(writers)[t];
      }
      if !all {
        failed := failed + {tag};
      }
    }
  }

  predicate AllClose(ws: seq<Option<Writer>>, closes: Writer -> bool) {
    forall i | 0 <= i < |ws| && ws[i].Some? :: closes(ws[i].value)
  }

  ghost function Members(ws: seq<Option<Writer>>): set<Writer> {
    set i | 0 <= i < |ws| && ws[i].Some? :: ws[i].value
  }

  /** The elements of a set in increasing order. */
  method Sorted(s: set<Tag>) returns (r: seq<Tag>)
    ensures forall t: Tag :: t in r <==> t in s
    ensures forall i, j | 0 <= i < j < |r| :: r[i] < r[j]
  {
    r := [];
    var rest := s;
    while rest != {}
      invariant rest <= s && forall t: Tag :: t in s <==> t in r || t in rest
      invariant forall i, j | 0 <= i < j < |r| :: r[i] < r[j]
      invariant forall i, t: Tag | 0 <= i < |r| && t in rest :: r[i] < t
    {
      var least := Least(rest);
      rest := rest - {least};
      r := r + [least];
    }
  }

  method Least(s: set<Tag>) returns (m: Tag)
    requires s != {}
    ensures m in s && forall t | t in s :: m <= t
  {
    m :| m in s;
    var rest := s - {m};
    while rest != {}
      invariant rest <= s && m in s && forall t | t in s && t !in rest :: m <= t
    {
      var t :| t in rest;
      rest := rest - {t};
      if t < m {
        m := t;
      }
    }
  }

  // ---------------------------------------------------------------- claiming packets

  /** What one attempt grants, given the count it loaded. */
  function Grant(seen: int, limit: int, wanted: nat): (n: nat)
    ensures n <= wanted && (seen <= limit ==> seen + n <= limit)
  {
    var left := if limit - seen > 0 then limit - seen else 0;
    if wanted < left then wanted else left
  }

  /** As much as was wanted, or what is left, and nothing past the limit. */
  lemma {:induction false} GrantIsMost(seen: int, limit: int, wanted: nat)
    ensures var n := Grant(seen, limit, wanted);
      (n < wanted ==> n == 0 || seen + n == limit) && (seen >= limit ==> n == 0) && (n < wanted && seen < limit ==> n == limit - seen)
  {
  }

  /** Concurrent claimers on one counter: each loads, then tries to swap, and starts over if another won. */
  datatype Claims = Claims(used: nat, loaded: map<nat, nat>, granted: map<nat, nat>)
  datatype ClaimStep = LoadUsed(who: nat) | TrySwap(who: nat, wanted: nat)

  ghost predicate CanClaim(c: Claims, a: ClaimStep) {
    match a
    case LoadUsed(who) => who !in c.granted
    case TrySwap(who, _) => who in c.loaded && who !in c.granted
  }

  ghost function Claim(c: Claims, limit: nat, a: ClaimStep): Claims
    requires CanClaim(c, a)
  {
    match a
    case LoadUsed(who) => c.(loaded := c.loaded[who := c.used])
    case TrySwap(who, wanted) =>
      var n := Grant(c.loaded[who], limit, wanted);
      if n == 0 then c.(granted := c.granted[who := 0])
      else if c.used == c.loaded[who] then Claims(c.used + n, c.loaded, c.granted[who := n])
      else c.(loaded := c.loaded - {who})
  }

  ghost function SumGranted(m: map<nat, nat>, ids: seq<nat>): nat
    requires forall i | 0 <= i < |ids| :: ids[i] in m
  {
    if ids == [] then 0 else SumGranted(m, ids[..|ids| - 1]) + m[ids[|ids| - 1]]
  }

  /** Who has claimed, each once, in the order their swaps took effect. */
  ghost predicate Lists(m: map<nat, nat>, ids: seq<nat>) {
    (forall i | 0 <= i < |ids| :: ids[i] in m) && (forall k | k in m :: k in ids) &&
    (forall i, j | 0 <= i < j < |ids| :: ids[i] != ids[j])
  }

  lemma {:induction false} SumExtends(m: map<nat, nat>, ids: seq<nat>, who: nat, n: nat)
    requires (forall i | 0 <= i < |ids| :: ids[i] in m) && who !in m
    ensures SumGranted(m[who := n], ids) == SumGranted(m, ids)
    decreases |ids|
  {
    if ids != [] {
      SumExtends(m, ids[..|ids| - 1], who, n);
    }
  }

  /** One step keeps: the counter is exactly what was granted, and never passes the limit. */
  lemma {:induction false} ClaimKeeps(c: Claims, limit: nat, a: ClaimStep, ids: seq<nat>) returns (ids': seq<nat>)
    requires CanClaim(c, a) && Lists(c.granted, ids) && SumGranted(c.granted, ids) == c.used <= limit
    ensures var c' := Claim(c, limit, a);
      Lists(c'.granted, ids') && SumGranted(c'.granted, ids') == c'.used <= limit
  {
    var c' := Claim(c, limit, a);
    if c'.granted == c.granted {
      ids' := ids;
    } else {
      ids' := ids + [a.who];
      GrantAdds(c.granted, ids, a.who, c'.granted[a.who]);
    }
  }

  lemma {:induction false} GrantAdds(m: map<nat, nat>, ids: seq<nat>, who: nat, n: nat)
    requires Lists(m, ids) && who !in m
    ensures Lists(m[who := n], ids + [who]) && SumGranted(m[who := n], ids + [who]) == SumGranted(m, ids) + n
  {
    SumExtends(m, ids, who, n);
    assert (ids + [who])[..|ids|] == ids;
  }

  ghost predicate ClaimRun(c: Claims, limit: nat, acts: seq<ClaimStep>)
    decreases |acts|
  {
    acts == [] || (CanClaim(c, acts[0]) && ClaimRun(Claim(c, limit, acts[0]), limit, acts[1..]))
  }

  ghost function AfterClaims(c: Claims, limit: nat, acts: seq<ClaimStep>): Claims
    requires ClaimRun(c, limit, acts)
    decreases |acts|
  {
    if acts == [] then c else AfterClaims(Claim(c, limit, acts[0]), limit, acts[1..])
  }

  /** However the claimers interleave, together they are granted what the counter says, at most the limit. */
  lemma {:induction false} ClaimsStayWithinLimit(c: Claims, limit: nat, acts: seq<ClaimStep>, ids: seq<nat>) returns (ids': seq<nat>)
    requires ClaimRun(c, limit, acts) && Lists(c.granted, ids) && SumGranted(c.granted, ids) == c.used <= limit
    ensures var c' := AfterClaims(c, limit, acts);
      Lists(c'.granted, ids') && SumGranted(c'.granted, ids') == c'.used <= limit
    decreases |acts|
  {
    if acts == [] {
      ids' := ids;
    } else {
      var next := ClaimKeeps(c, limit, acts[0], ids);
      ids' := ClaimsStayWithinLimit(Claim(c, limit, acts[0]), limit, acts[1..], next);
    }
  }
}
