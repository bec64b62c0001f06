/** The branch-free wakeup flag of the capture ring: forced exactly when a record takes the backlog across a
    multiple of a quarter of the ring, and what that means over a run of submits. */
module Wakeup {
  import opened Words

  const NO_WAKEUP := 1
  const FORCE_WAKEUP := 2

  /** Bitwise exclusive or. */
  function Xor(a: nat, b: nat): nat
    decreases a + b
  {
    if a == 0 && b == 0 then 0 else (if a % 2 == b % 2 then 0 else 1) + 2 * Xor(a / 2, b / 2)
  }

  /** The highest differing bit is below position `k` exactly when the quotients agree. */
  lemma {:induction false} XorBelow(a: nat, b: nat, k: nat)
    ensures Xor(a, b) < Pow(2, k) <==> a / Pow(2, k) == b / Pow(2, k)
    decreases k
  {
    if k == 0 {
      XorZero(a, b);
    } else {
      XorBelow(a / 2, b / 2, k - 1);
      var p := Pow(2, k - 1);
      HalfThenQuarter(a, p);
      HalfThenQuarter(b, p);
      assert Xor(a, b) / 2 == Xor(a / 2, b / 2) by {
        if a == 0 && b == 0 { assert Xor(0, 0) == 0; }
      }
    }
  }

  lemma {:induction false} HalfThenQuarter(a: nat, p: nat)
    requires p > 0
    ensures a / 2 / p == a / (2 * p)
  {
    var h := a / 2;
    var q, r := h / p, h % p;
    assert q * (2 * p) == 2 * (q * p);
    Quotient(a, 2 * p, q, 2 * r + a % 2);
  }

  lemma {:induction false} Quotient(a: nat, p: nat, q: nat, r: nat)
    requires p > 0 && r < p && a == q * p + r
    ensures a / p == q
  {
    var d := a / p;
    if d < q {
      Product(d + 1, q, p);
    } else if d > q {
      Product(q + 1, d, p);
    }
  }

  lemma {:induction false} Product(a: nat, b: nat, p: nat)
    requires a <= b
    ensures a * p <= b * p && (a + 1) * p == a * p + p
  {
    assert (b - a) * p >= 0;
  }

  lemma {:induction false} XorZero(a: nat, b: nat)
    ensures Xor(a, b) < 1 <==> a == b
    decreases a + b
  {
    if a != 0 || b != 0 {
      XorZero(a / 2, b / 2);
    }
  }

  // ---------------------------------------------------------------- the emitted code

  /** The sign bit of `n` in a word whose sign bit weighs `half`: all that a logical right shift of it leaves. */
  function SignBit(n: int, half: nat): (b: nat)
    requires half > 0
    ensures 0 <= n < half ==> b == 0
    ensures 0 - half <= n < 0 ==> b == 1
  {
    Remainder(n, 2 * half);
    if n % (2 * half) < half then 0 else 1
  }

  lemma {:induction false} Remainder(n: int, m: nat)
    requires m > 0
    ensures 0 <= n < m ==> n % m == n
    ensures 0 - m < n < 0 ==> n % m == n + m
  {
    var q, r := n / m, n % m;
    assert n == q * m + r;
    if 0 <= n < m {
      Small(n, m);
    } else if 0 - m < n < 0 {
      if q < -1 {
        Product(2, -q, m);
      }
    }
  }

  /** Ring bytes one record takes: the 8-byte header and the sample, rounded up to 8. */
  function RecordLength(sample: nat): (n: nat)
    ensures n % 8 == 0 && sample + 8 <= n < sample + 16
  {
    (8 + sample + 7) / 8 * 8
  }

  /** The emitted sequence, in a machine word whose sign bit weighs `half`. */
  function Flag(half: nat, ring: nat, backlog: nat, record: nat): nat
    requires half > 0
  {
    SignBit(ring / 4 - 1 - Xor((backlog + record) % (2 * half), backlog), half) + NO_WAKEUP
  }

  /** The ring is a power of two and the backlog fits the word (sign bit 2^w, w = 63 on the BPF machine), as the
      kernel guarantees; then the flag forces a wakeup exactly when the record crosses a multiple of a quarter ring. */
  lemma {:induction false} FlagIsCrossing(w: nat, k: nat, backlog: nat, record: nat)
    requires k <= w && backlog + record < Pow(2, w)
    ensures var t := Pow(2, k);
      Flag(Pow(2, w), 4 * t, backlog, record) == if backlog / t == (backlog + record) / t then NO_WAKEUP else FORCE_WAKEUP
  {
    var t := Pow(2, k);
    XorBelow(backlog + record, backlog, k);
    PowGrows(k, w);
    XorBound(backlog + record, backlog, w);
    Small(backlog + record, 2 * Pow(2, w));
  }

  lemma {:induction false} PowGrows(j: nat, k: nat)
    requires j <= k
    ensures Pow(2, j) <= Pow(2, k)
    decreases k
  {
    if j < k {
      PowGrows(j, k - 1);
    }
  }

  /** An exclusive or is no wider than its operands. */
  lemma {:induction false} XorBound(a: nat, b: nat, w: nat)
    requires a < Pow(2, w) && b < Pow(2, w)
    ensures Xor(a, b) < Pow(2, w)
  {
    Small(a, Pow(2, w));
    Small(b, Pow(2, w));
    XorBelow(a, b, w);
  }

  lemma {:induction false} Small(a: nat, p: nat)
    requires a < p
    ensures a / p == 0 && a % p == a
  {
  }

  // ---------------------------------------------------------------- runs of submits

  function Sum(records: seq<nat>): nat {
    if records == [] then 0 else Sum(records[..|records| - 1]) + records[|records| - 1]
  }

  /** The flag of the n-th submit of a run on an unread ring. */
  function FlagAt(w: nat, ring: nat, backlog: nat, records: seq<nat>, n: nat): nat
    requires n < |records|
  {
    Flag(Pow(2, w), ring, backlog + Sum(records[..n]), records[n])
  }

  /** No run of submits adds a quarter ring or more to an unread ring without a forced wakeup. */
  lemma {:induction false} QuarterRingWakes(w: nat, k: nat, backlog: nat, records: seq<nat>)
    requires k <= w && backlog + Sum(records) < Pow(2, w)
    requires Sum(records) >= Pow(2, k)
    ensures exists n | 0 <= n < |records| :: FlagAt(w, 4 * Pow(2, k), backlog, records, n) == FORCE_WAKEUP
  {
    if forall n | 0 <= n < |records| :: FlagAt(w, 4 * Pow(2, k), backlog, records, n) != FORCE_WAKEUP {
      SameQuotient(w, k, backlog, records);
      var t := Pow(2, k);
      QuotientBound(backlog, backlog + Sum(records), t);
    }
  }

  lemma {:induction false} QuotientBound(a: nat, b: nat, t: nat)
    requires t > 0 && a / t == b / t
    ensures b - a < t
  {
  }

  /** Without a forced wakeup the backlog stays between two multiples. */
  lemma {:induction false} SameQuotient(w: nat, k: nat, backlog: nat, records: seq<nat>)
    requires k <= w && backlog + Sum(records) < Pow(2, w)
    requires forall n | 0 <= n < |records| :: FlagAt(w, 4 * Pow(2, k), backlog, records, n) != FORCE_WAKEUP
    ensures (backlog + Sum(records)) / Pow(2, k) == backlog / Pow(2, k)
    decreases |records|
  {
    if records != [] {
      var m := |records| - 1;
      var rest := records[..m];
      forall n | 0 <= n < m
        ensures FlagAt(w, 4 * Pow(2, k), backlog, rest, n) != FORCE_WAKEUP
      {
        assert rest[..n] == records[..n];
        assert FlagAt(w, 4 * Pow(2, k), backlog, records, n) != FORCE_WAKEUP;
      }
      SameQuotient(w, k, backlog, rest);
      assert FlagAt(w, 4 * Pow(2, k), backlog, records, m) != FORCE_WAKEUP;
      FlagIsCrossing(w, k, backlog + Sum(rest), records[m]);
    }
  }

  // ---------------------------------------------------------------- the shard's ring

  function BitLength(n: nat): nat {
    if n == 0 then 0 else 1 + BitLength(n / 2)
  }

  lemma {:induction false} BitLengthBounds(n: nat)
    requires n > 0
    ensures BitLength(n) > 0 && Pow(2, BitLength(n) - 1) <= n < Pow(2, BitLength(n))
  {
    if n > 1 {
      BitLengthBounds(n / 2);
    }
  }

  /** Each shard's ring: the largest power of two within its even share, and at least 64 KiB. */
  method ShardRingSize(total: nat, cpus: nat) returns (size: nat, ghost k: nat)
    requires cpus > 0
    ensures size == Pow(2, k) && 65536 <= size
    ensures var share := if total / cpus < 65536 then 65536 else total / cpus; size <= share < 2 * size
  {
    var share := if total / cpus < 65536 then 65536 else total / cpus;
    BitLengthBounds(share);
    k := BitLength(share) - 1;
    size := Pow(2, BitLength(share) - 1);
    PowSixteen();
    if k < 16 {
      PowGrows(k + 1, 16);
    } else {
      PowGrows(16, k);
    }
  }

  lemma {:induction false} PowSixteen()
    ensures Pow(2, 16) == 65536
  {
    assert Pow(2, 4) == 16;
    assert Pow(2, 8) == 16 * Pow(2, 4);
    assert Pow(2, 12) == 16 * Pow(2, 8);
  }
}
