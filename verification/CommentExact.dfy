/** What each item of a comment says: the number its bits stand for, the bytes in hexadecimal, and the marks for what was
    not read or was cut. */
module CommentExact {
  import opened Words
  import opened Comment

  // ---------------------------------------------------------------- bits and signs

  lemma {:induction false} ShiftIsQuotient(v: nat, bit: nat)
    ensures ShiftRight(v, bit) == v / Pow(2, bit)
    decreases bit
  {
    if bit > 0 {
      ShiftIsQuotient(v / 2, bit - 1);
      QuotientTwice(v, Pow(2, bit - 1));
    }
  }

  lemma {:induction false} QuotientTwice(v: nat, p: nat)
    requires p > 0
    ensures v / 2 / p == v / (2 * p) && v % (2 * p) == 2 * (v / 2 % p) + v % 2
  {
    Quotient(v / 2, p);
    var q, r := v / 2 / p, v / 2 % p;
    assert v == 2 * (p * q + r) + v % 2;
    assert v == 2 * p * q + (2 * r + v % 2) by { Twice(p, q); }
    QuotientIs(v, 2 * p, q, 2 * r + v % 2);
  }

  lemma {:induction false} Twice(p: nat, q: nat)
    ensures 2 * p * q == 2 * (p * q)
  {
  }

  lemma {:induction false} Quotient(v: nat, d: nat)
    requires d > 0
    ensures v == d * (v / d) + v % d && 0 <= v % d < d
  {
  }

  lemma {:induction false} QuotientIs(v: nat, d: nat, q: nat, r: nat)
    requires d > 0 && v == d * q + r && r < d
    ensures v / d == q && v % d == r
  {
    var q' := v / d;
    Quotient(v, d);
    if q' > q {
      assert d * q' >= d * (q + 1) by { Larger(d, q + 1, q'); }
    } else if q' < q {
      assert d * q >= d * (q' + 1) by { Larger(d, q' + 1, q); }
    }
  }

  lemma {:induction false} Larger(d: nat, a: nat, b: nat)
    requires a <= b
    ensures d * a <= d * b
  {
    assert d * b == d * a + d * (b - a);
  }

  lemma {:induction false} LowIsRemainder(v: nat, bits: nat)
    ensures LowBits(v, bits) == v % Pow(2, bits)
    decreases bits
  {
    if bits > 0 {
      LowIsRemainder(v / 2, bits - 1);
      QuotientTwice(v, Pow(2, bits - 1));
    }
  }

  /** The signed number of that width with the same low bits. */
  lemma {:induction false} SignIsKept(v: nat, width: nat)
    requires 1 <= width <= 64
    ensures var n := SignExtend(v, width);
      0 - Pow(2, width - 1) <= n < Pow(2, width - 1) && (if n < 0 then n + Pow(2, width) else n) == v % Pow(2, width)
  {
    assert Pow(2, width) == 2 * Pow(2, width - 1);
  }

  /** The number an integer or enum of `size` bytes, or a bit field of `bits` bits at `bit`, stands for. */
  ghost function Standing(t: Ty, raw: nat, bit: nat, bits: nat): nat {
    if bits > 0 then raw / Pow(2, bit) % Pow(2, bits) else raw
  }

  ghost predicate SignedTy(t: Ty) {
    match t
    case IntTy(_, enc) => enc == Signed
    case EnumTy(_, signed) => signed
    case _ => false
  }

  lemma {:induction false} SignedReads(v: nat, width: nat)
    requires 1 <= width <= 64
    ensures var text, low := DecInt(SignExtend(v, width)), v % Pow(2, width);
      if low >= Pow(2, width - 1) then text[0] == '-' && Reading(text[1..], 10) == Pow(2, width) - low
      else text[0] != '-' && Reading(text, 10) == low
  {
    SignIsKept(v, width);
    DecIntReads(SignExtend(v, width));
  }

  lemma {:induction false} StandingIsRead(t: Ty, raw: nat, bit: nat, bits: nat)
    ensures (if bits > 0 then LowBits(ShiftRight(raw, bit), bits) else raw) == Standing(t, raw, bit, bits)
  {
    ShiftIsQuotient(raw, bit);
    LowIsRemainder(ShiftRight(raw, bit), bits);
  }

  /** A number's text is that of the bits it stands for: true or false, or decimal, negative exactly when its type is
      signed and its top bit set. */
  lemma {:induction false} NumberMeans(t: Ty, raw: nat, bit: nat, bits: nat, span: nat)
    requires IsScalar(t) && bits <= 64 && span <= 8 && (bits == 0 ==> 1 <= t.size <= 8)
    ensures var v, text := Standing(t, raw, bit, bits), NumberText(t, raw, bit, bits, span);
      var width := if bits > 0 then bits else 8 * t.size;
      if t.IntTy? && t.enc == Bool then text == (if v == 0 then "false" else "true")
      else if !SignedTy(t) then text[0] != '-' && Reading(text, 10) == v
      else if v % Pow(2, width) >= Pow(2, width - 1) then text[0] == '-' && Reading(text[1..], 10) == Pow(2, width) - v % Pow(2, width)
      else text[0] != '-' && Reading(text, 10) == v % Pow(2, width)
  {
    StandingIsRead(t, raw, bit, bits);
    var v := Standing(t, raw, bit, bits);
    if SignedTy(t) {
      SignedReads(v, if bits > 0 then bits else 8 * t.size);
    } else {
      DecIntReads(v);
    }
  }

  // ---------------------------------------------------------------- items

  /** What is appended: a space unless the text was empty, and the item. */
  predicate Appends(c: string, r: string, item: string) {
    r == (if c == "" then item else c + " " + item)
  }

  lemma {:induction false} Joined(c: string, name: string, rest: string)
    ensures Appends(c, Sep(c) + name + rest, name + rest)
  {
    assert Sep(c) + name + rest == Sep(c) + (name + rest);
  }

  lemma {:induction false} JoinedThree(c: string, name: string, mid: string, rest: string)
    ensures Appends(c, Sep(c) + name + mid + rest, name + mid + rest)
  {
    assert Sep(c) + name + mid + rest == Sep(c) + (name + mid + rest);
  }

  /** A field of a filter's record: not read, a pointer's nullness, or a number. */
  lemma {:induction false} FieldSays(c: string, f: Field, v: nat, valid: bool)
    requires v < U64
    ensures var r := FieldText(c, f, v, valid);
      if !valid then Appends(c, r, f.name + "=?")
      else if f.pointer then Appends(c, r, f.name + (if v == 0 then "=null" else "!=null"))
      else Appends(c, r, f.name + "=" + DecInt(if f.signed && v >= 0x8000_0000_0000_0000 then v - 0x1_0000_0000_0000_0000 else v))
  {
    if !valid {
      Joined(c, f.name, "=?");
    } else if f.pointer {
      Joined(c, f.name, if v == 0 then "=null" else "!=null");
    } else {
      WordIsSigned(v);
      JoinedThree(c, f.name, "=", DecInt(if f.signed then SignExtend(v, 64) else v));
    }
  }

  lemma {:induction false} WordIsSigned(v: nat)
    requires v < U64
    ensures SignExtend(v, 64) == if v >= 0x8000_0000_0000_0000 then v - 0x1_0000_0000_0000_0000 else v
  {
    WidePower();
  }

  lemma {:induction false} WidePower()
    ensures Pow(2, 63) == 0x8000_0000_0000_0000
  {
    PowTriples(21);
    assert Pow(8, 7) == 0x20_0000;
    assert Pow(8, 14) == 0x20_0000 * Pow(8, 7);
    assert Pow(8, 21) == 0x20_0000 * Pow(8, 14);
  }

  /** The site in decimal and the status in sixteen hexadecimal digits, or that they were not read; a 4-byte info is
      named site. */
  lemma {:induction false} HeadSays(c: string, l: Layout, b: Block)
    requires l.Entry?
    ensures l.site.Absent? ==> SiteText(c, l, b) == c
    ensures l.site.Present? ==>
      var name := if l.site.name == "info" && l.site.size == 4 then "site" else l.site.name;
      Appends(c, SiteText(c, l, b), if b.valid(0) then name + "=" + DecInt(b.site) else name + "=?")
    ensures l.status.Absent? ==> StatusText(c, l, b) == c
    ensures l.status.Present? ==>
      Appends(c, StatusText(c, l, b), if b.valid(1) then l.status.name + "=" + ("0x" + HexWord(b.status, 16)) else l.status.name + "=?")
  {
    if l.site.Present? {
      ScalarSays(c, l.site, SiteName(l.site), DecInt(b.site), b.valid(0));
    }
    if l.status.Present? {
      ScalarSays(c, l.status, l.status.name, "0x" + HexWord(b.status, 16), b.valid(1));
    }
  }

  lemma {:induction false} ScalarSays(c: string, s: Scalar, name: string, text: string, valid: bool)
    requires s.Present?
    ensures Appends(c, ScalarText(c, s, name, text, valid), if valid then name + "=" + text else name + "=?")
  {
    if valid {
      JoinedThree(c, name, "=", text);
    } else {
      Joined(c, name, "=?");
    }
  }

  lemma {:induction false} MarkerSays(c: string, v: Bytes)
    requires v.Bytes?
    ensures Appends(c, Marker(c, v), v.name + "_bytes=" + DecInt(v.len) + "/" + DecInt(v.size))
  {
    assert Marker(c, v) == Sep(c) + (v.name + "_bytes=" + DecInt(v.len) + "/" + DecInt(v.size));
  }

  /** A key or value: cut to nothing, not read, or what is shown of it, and a mark of how much was kept. */
  lemma {:induction false} BytesSay(c: string, v: Bytes, data: seq<Byte>, valid: bool)
    requires v.Bytes? && |data| == v.len
    ensures AllFit(Show(v, v.len), v.len)
    ensures var r, cut := BytesText(c, v, data, valid), v.name + "_bytes=" + DecInt(v.len) + "/" + DecInt(v.size);
      if v.len == 0 then (if v.size == 0 then r == c else Appends(c, r, cut))
      else if !valid then Appends(c, r, v.name + "=?")
      else if v.len < v.size then Appends(EmitAll(c, Show(v, v.len), data), r, cut)
      else r == EmitAll(c, Show(v, v.len), data)
  {
    ShowFits(v, v.len);
    MarkerSays(c, v);
    MarkerSays(EmitAll(c, Show(v, v.len), data), v);
    Joined(c, v.name, "=?");
  }

  /** One shown item: a plain number, a stretch in hexadecimal, or an integer, which must lie in the recorded bytes. */
  lemma {:induction false} ItemSays(c: string, v: Visit, data: seq<Byte>)
    requires Fits(v, |data|)
    ensures var r := Emit(c, v, data);
      match v.what
      case Plain(n) => Appends(c, r, v.name + "=" + DecInt(ReadUint(if n < |data| then data[..n] else data)))
      case Dump(off, size) => Appends(c, r, v.name + "=" + Hex(data[off..off + size]))
      case Number(t, off, bits) => NumberSays(c, r, v.name, t, off, bits, data)
  {
    match v.what {
      case Plain(n) =>
        assert data[..|data|] == data;
        JoinedThree(c, v.name, "=", DecInt(ReadUint(if n < |data| then data[..n] else data)));
      case Dump(off, size) => JoinedThree(c, v.name, "=", Hex(data[off..off + size]));
      case Number(t, off, bits) => IntegerSays(c, v, t, off, bits, data);
    }
  }

  lemma {:induction false} IntegerSays(c: string, v: Visit, t: Ty, off: nat, bits: nat, data: seq<Byte>)
    requires v.what == Number(t, off, bits)
    ensures NumberSays(c, Emit(c, v, data), v.name, t, off, bits, data)
  {
    var size := Span(t, off % 8, bits);
    if size > 0 && off / 8 + size <= |data| {
      SpanBits(t, off % 8, bits);
      JoinedThree(c, v.name, "=", NumberText(t, ReadUint(data[off / 8..off / 8 + size]), off % 8, bits, size));
    }
  }

  ghost predicate NumberSays(c: string, r: string, name: string, t: Ty, off: nat, bits: nat, data: seq<Byte>) {
    var size := Span(t, off % 8, bits);
    if size == 0 || off / 8 + size > |data| then r == c
    else
      IsScalar(t) && bits <= 64 && (bits == 0 ==> 1 <= t.size <= 8) &&
      Appends(c, r, name + "=" + NumberText(t, ReadUint(data[off / 8..off / 8 + size]), off % 8, bits, size))
  }

  /** The bytes an integer takes: all of its own, or those its bits reach into; none beyond eight. */
  lemma {:induction false} SpanSays(t: Ty, bit: nat, bits: nat)
    ensures var n := if bits > 0 then (bit + bits + 7) / 8 else if IsScalar(t) then t.size else 0;
      Span(t, bit, bits) == if (t.IntTy? || t.EnumTy?) && n <= 8 then n else 0
  {
  }

  // ---------------------------------------------------------------- what is shown

  /** The bytes an integer at bit `off` takes, from `off / 8` on. */
  function Bytes8(t: Ty, off: nat, bits: nat): nat
    requires t.IntTy? || t.EnumTy?
  {
    if bits > 0 then (off % 8 + bits + 7) / 8 else t.size
  }

  predicate IntegerRecorded(t: Ty, off: nat, bits: nat, n: nat) {
    (t.IntTy? || t.EnumTy?) && 1 <= Bytes8(t, off, bits) <= 8 && off / 8 + Bytes8(t, off, bits) <= n
  }

  predicate BytesRecorded(off: nat, size: nat, n: nat) {
    size > 0 && off % 8 == 0 && off / 8 + size <= n
  }

  function One(shown: bool, name: string, what: Shown): seq<Visit> {
    if shown then [Visit(name, what)] else []
  }

  /** Members are shown in order, each on its own. */
  lemma {:induction false} MembersInOrder(prefix: string, a: seq<Member>, b: seq<Member>, base: nat, n: nat)
    ensures Walk(prefix, a + b, base, n) == Walk(prefix, a, base, n) + Walk(prefix, b, base, n)
    decreases |b|
  {
    if b == [] {
      assert a + b == a;
    } else {
      var front, last := b[..|b| - 1], b[|b| - 1];
      assert (a + b)[..|a + b| - 1] == a + front;
      MembersInOrder(prefix, a, front, base, n);
      assert Walk(prefix, a + b, base, n) == Walk(prefix, a + front, base, n) + WalkMember(prefix, last, base, n);
      assert Walk(prefix, b, base, n) == Walk(prefix, front, base, n) + WalkMember(prefix, last, base, n);
    }
  }

  /** A member: an integer when all its bytes were recorded, a plain array or named union in hexadecimal when all of it was,
      the members of a struct or plain anonymous union, a pointer never. */
  lemma {:induction false} MemberShown(prefix: string, m: Member, base: nat, n: nat)
    ensures var off, name := base + m.off, prefix + m.name;
      Walk(prefix, [m], base, n) ==
        match m.ty
        case IntTy(_, _) => One(IntegerRecorded(m.ty, off, m.bits, n), name, Number(m.ty, off, m.bits))
        case EnumTy(_, _) => One(IntegerRecorded(m.ty, off, m.bits, n), name, Number(m.ty, off, m.bits))
        case StructTy(members, hidden, _) => if hidden then [] else Walk(if m.name == "" then prefix else prefix + m.name + ".", members, off, n)
        case ArrayTy(plain, size) => One(plain && BytesRecorded(off, size, n), name, Dump(off / 8, size))
        case UnionTy(members, plain, size) =>
          if plain && m.name == "" then Walk(prefix, members, off, n) else One(plain && BytesRecorded(off, size, n), name, Dump(off / 8, size))
        case VoidTy => []
        case OtherTy => []
  {
    assert [m][..0] == [];
    assert Walk(prefix, [m], base, n) == WalkMember(prefix, m, base, n);
    SpanSays(m.ty, (base + m.off) % 8, m.bits);
  }

  /** A pointed-to key or value. */
  function PointedShown(v: Bytes, n: nat): seq<Visit>
    requires v.Bytes?
  {
    match v.ty
    case IntTy(_, _) => One(IntegerRecorded(v.ty, 0, 0, n), v.name + "[0]", Number(v.ty, 0, 0))
    case EnumTy(_, _) => One(IntegerRecorded(v.ty, 0, 0, n), v.name + "[0]", Number(v.ty, 0, 0))
    case StructTy(members, hidden, raw) => if !raw && !hidden then Walk(v.name + "->", members, 0, n) else One(raw, v.name, Dump(0, n))
    case ArrayTy(plain, _) => One(plain, v.name, Dump(0, n))
    case UnionTy(_, plain, _) => One(plain, v.name, Dump(0, n))
    case VoidTy => One(true, v.name, Dump(0, n))
    case OtherTy => []
  }

  /** A key or value, by its top-level shape; nothing when nothing was recorded. */
  lemma {:induction false} ValueShown(v: Bytes, n: nat)
    requires v.Bytes?
    ensures n == 0 ==> Show(v, n) == []
    ensures n > 0 && !v.pointer ==> Show(v, n) == [Visit(v.name, Plain(n))]
    ensures n > 0 && v.pointer ==> Show(v, n) == PointedShown(v, n)
  {
    SpanSays(v.ty, 0, 0);
  }

  // ---------------------------------------------------------------- the whole comment, and its bound

  /** The parts of an entry's comment, in order, each with the bit that says it was read; the bytes they take. */
  lemma {:induction false} PartsInOrder(l: Layout, dst: string, b: Block)
    requires BlockOk(l, b)
    ensures l.Filter? ==> Size(l) == 8 + 8 * |l.fields|
    ensures l.Entry? ==> Size(l) == 24 + |b.key| + |b.value|
    ensures l.Entry? ==>
      CommentText(l, dst, b) == BytesText(BytesText(StatusText(SiteText(dst, l, b), l, b), l.key, b.key, b.valid(2)), l.value, b.value, b.valid(3))
  {
  }

  lemma {:induction false} DecIsLong(n: nat, k: nat)
    requires n >= Pow(10, k)
    ensures |Dec(n)| > k
    decreases k
  {
    if k > 0 {
      assert n >= 10 * Pow(10, k - 1);
      DecIsLong(n / 10, k - 1);
    }
  }

  lemma {:induction false} Ones(k: nat)
    ensures Of(seq(k, _ => 255)) == Pow(256, k) - 1
  {
    if k > 0 {
      Ones(k - 1);
      assert seq(k, _ => 255 as Byte)[1..] == seq(k - 1, _ => 255 as Byte);
    }
  }

  lemma {:induction false} GreatestIsLong()
    ensures |DecInt(0x1_0000_0000_0000_0000 - 1)| == 20
  {
    TenPowers();
    DecIsLong(0x1_0000_0000_0000_0000 - 1, 19);
    IntLength(0x1_0000_0000_0000_0000 - 1);
  }

  lemma {:induction false} GreatestRead(d: seq<Byte>)
    requires |d| >= 8 && d[..8] == seq(8, _ => 255)
    ensures ReadUint(d) == 0x1_0000_0000_0000_0000 - 1
  {
    Ones(8);
    assert |d| == 8 ==> d[..8] == d;
    assert Pow(256, 4) == 0x1_0000_0000;
    assert Pow(256, 8) == 0x1_0000_0000 * Pow(256, 4);
  }

  /** The room of an item is no more than it needs: bytes always take all of it, and the greatest eight-byte integer does. */
  lemma {:induction false} RoomIsTight(c: string, v: Visit, data: seq<Byte>)
    requires Fits(v, |data|) && c != ""
    ensures v.what.Dump? ==> |Emit(c, v, data)| == |c| + Room(v)
    ensures v.what.Plain? && v.what.n == |data| == 8 && data == seq(8, _ => 255) ==> |Emit(c, v, data)| == |c| + Room(v)
  {
    if v.what.Plain? && v.what.n == |data| == 8 && data == seq(8, _ => 255) {
      assert data[..8] == data;
      GreatestRead(data);
      GreatestIsLong();
    }
  }
}
