/** Rendering a hook record as a capture comment, and the bound computed before capturing. */
module Comment {
  import opened Words

  // ---------------------------------------------------------------- decimal and hexadecimal

  const DIGITS := "0123456789abcdef"

  function Dec(n: nat): (s: string)
    ensures |s| >= 1
  {
    if n < 10 then [DIGITS[n]] else Dec(n / 10) + [DIGITS[n % 10]]
  }

  function DecInt(n: int): string {
    if n < 0 then "-" + Dec(-n) else Dec(n)
  }

  /** The number a string of digits stands for, in any base up to sixteen. */
  function Reading(s: string, base: nat): int {
    if s == [] then 0 else Reading(s[..|s| - 1], base) * base + DigitOf(s[|s| - 1])
  }

  function DigitOf(c: char): int {
    if '0' <= c <= '9' then c as int - '0' as int else if 'a' <= c <= 'f' then c as int - 'a' as int + 10 else -1
  }

  lemma {:induction false} DigitsRead(n: nat)
    requires n < 16
    ensures DigitOf(DIGITS[n]) == n && DIGITS[n] != '-'
  {
    var digits := "0123456789abcdef";
    assert DIGITS == digits;
  }

  /** Decimal text reads back as the number, with a minus sign exactly for negative ones and no leading zero. */
  lemma {:induction false} DecReads(n: nat)
    ensures Reading(Dec(n), 10) == n && (forall i | 0 <= i < |Dec(n)| :: Dec(n)[i] != '-') && (n > 0 ==> Dec(n)[0] != '0')
  {
    DigitsRead(n % 10);
    if n >= 10 {
      DecReads(n / 10);
      var front := Dec(n / 10);
      assert Dec(n)[..|Dec(n)| - 1] == front;
    } else {
      assert Dec(n)[..0] == [];
    }
  }

  lemma {:induction false} DecIntReads(n: int)
    ensures if n < 0 then DecInt(n)[0] == '-' && Reading(DecInt(n)[1..], 10) == -n else Reading(DecInt(n), 10) == n && DecInt(n)[0] != '-'
  {
    DecReads(if n < 0 then -n else n);
  }

  lemma {:induction false} DecLength(n: nat, k: nat)
    requires k >= 1 && n < Pow(10, k)
    ensures |Dec(n)| <= k
  {
    if n >= 10 {
      assert Pow(10, 1) == 10;
      DecLength(n / 10, k - 1);
    }
  }

  const U32 := 0x1_0000_0000
  const U63 := 0x8000_0000_0000_0000
  const U64 := 0x1_0000_0000_0000_0000

  lemma {:induction false} TenPowers()
    ensures Pow(10, 10) == 10_000_000_000 && Pow(10, 19) == 10_000_000_000_000_000_000 && Pow(10, 20) == 100_000_000_000_000_000_000
  {
    assert Pow(10, 5) == 100_000;
    assert Pow(10, 10) == 100_000 * Pow(10, 5);
    assert Pow(10, 15) == 100_000 * Pow(10, 10);
    assert Pow(10, 19) == 10_000 * Pow(10, 15);
  }

  const MAX_DIGITS := 20

  /** No 64-bit integer, signed or not, takes more than twenty characters. */
  lemma {:induction false} IntLength(n: int)
    requires 0 - U63 <= n < U64
    ensures |DecInt(n)| <= MAX_DIGITS
    ensures 0 <= n < U32 ==> |DecInt(n)| <= 10
  {
    TenPowers();
    if n < 0 {
      DecLength(-n, 19);
    } else {
      DecLength(n, 20);
      if n < U32 { DecLength(n, 10); }
    }
  }

  function Hex(data: seq<Byte>): (s: string)
    ensures |s| == 2 * |data|
  {
    if data == [] then [] else [DIGITS[data[0] / 16], DIGITS[data[0] % 16]] + Hex(data[1..])
  }

  function HexWord(n: nat, digits: nat): (s: string)
    ensures |s| == digits
  {
    if digits == 0 then [] else HexWord(n / 16, digits - 1) + [DIGITS[n % 16]]
  }

  /** Two hexadecimal digits a byte, high one first. */
  lemma {:induction false} HexReads(data: seq<Byte>, i: nat)
    requires i < |data|
    ensures DigitOf(Hex(data)[2 * i]) * 16 + DigitOf(Hex(data)[2 * i + 1]) == data[i]
    decreases i
  {
    if i == 0 {
      DigitsRead(data[0] / 16);
      DigitsRead(data[0] % 16);
    } else {
      HexReads(data[1..], i - 1);
      assert Hex(data)[2 * i] == Hex(data[1..])[2 * (i - 1)] && Hex(data)[2 * i + 1] == Hex(data[1..])[2 * (i - 1) + 1];
    }
  }

  /** A word of `digits` hexadecimal digits reads back as the number, when it fits. */
  lemma {:induction false} HexWordReads(n: nat, digits: nat)
    requires n < Pow(16, digits)
    ensures Reading(HexWord(n, digits), 16) == n
    decreases digits
  {
    if digits > 0 {
      DigitsRead(n % 16);
      HexWordReads(n / 16, digits - 1);
      assert HexWord(n, digits)[..digits - 1] == HexWord(n / 16, digits - 1);
    }
  }

  /** At most the first eight bytes count, low byte first. */
  function ReadUint(b: seq<Byte>): nat {
    Of(if |b| > 8 then b[..8] else b)
  }

  lemma {:induction false} OfBound(s: seq<Byte>, k: nat)
    requires |s| <= k
    ensures Of(s) < Pow(256, k)
    decreases k
  {
    if s != [] {
      OfBound(s[1..], k - 1);
    }
  }

  lemma {:induction false} ReadBound(b: seq<Byte>)
    ensures ReadUint(b) < U64
  {
    OfBound(if |b| > 8 then b[..8] else b, 8);
    assert Pow(256, 4) == U32;
    assert Pow(256, 8) == U32 * Pow(256, 4);
  }

  // ---------------------------------------------------------------- types and layouts

  datatype Encoding = Unsigned | Signed | Bool

  /** BTF types as far as a comment shows them: `hidden` structs and types that are not `plain` are never shown,
      `raw` is the byte-array wrapper of an untyped map side. */
  datatype Ty =
    | IntTy(size: nat, enc: Encoding)
    | EnumTy(size: nat, signed: bool)
    | StructTy(members: seq<Member>, hidden: bool, raw: bool)
    | UnionTy(members: seq<Member>, plain: bool, size: nat)
    | ArrayTy(plain: bool, size: nat)
    | VoidTy
    | OtherTy

  datatype Member = Member(name: string, off: nat, bits: nat, ty: Ty)

  datatype Field = Field(name: string, signed: bool, pointer: bool)
  datatype Scalar = Absent | Present(name: string, size: nat)
  datatype Bytes = NoBytes | Bytes(name: string, pointer: bool, size: nat, len: nat, ty: Ty)
  datatype Layout = Filter(fields: seq<Field>) | Entry(site: Scalar, status: Scalar, key: Bytes, value: Bytes)

  function LenOf(v: Bytes): nat {
    if v.NoBytes? then 0 else v.len
  }

  const HEADER := 8
  const ENTRY_BYTES := 24

  function Size(l: Layout): nat {
    if l.Filter? then HEADER + 8 * |l.fields| else ENTRY_BYTES + LenOf(l.key) + LenOf(l.value)
  }

  // ---------------------------------------------------------------- what is shown

  /** One shown item: an integer or enum at a bit offset, or bytes in hexadecimal. */
  datatype Shown = Number(ty: Ty, off: nat, bits: nat) | Plain(n: nat) | Dump(off: nat, size: nat)
  datatype Visit = Visit(name: string, what: Shown)

  predicate IsScalar(t: Ty) {
    t.IntTy? || t.EnumTy?
  }

  /** Bytes an integer spans, or 0 when it is not one of at most eight. */
  function Span(t: Ty, bit: nat, bits: nat): (n: nat)
    ensures n <= 8
  {
    if !IsScalar(t) then 0
    else
      var size := if bits > 0 then (bit + bits + 7) / 8 else t.size;
      if 0 < size <= 8 then size else 0
  }

  function WalkMember(prefix: string, m: Member, base: nat, n: nat): seq<Visit>
    decreases m, 1
  {
    var off, name := base + m.off, prefix + m.name;
    match m.ty
    case StructTy(members, hidden, _) =>
      if hidden then [] else Walk(if m.name == "" then prefix else name + ".", members, off, n)
    case IntTy(_, _) => ShowScalar(name, m.ty, off, m.bits, n)
    case EnumTy(_, _) => ShowScalar(name, m.ty, off, m.bits, n)
    case UnionTy(members, plain, size) =>
      if !plain then []
      else if m.name == "" then Walk(prefix, members, off, n)
      else ShowDump(name, off, size, n)
    case ArrayTy(plain, size) => if !plain then [] else ShowDump(name, off, size, n)
    case VoidTy => []
    case OtherTy => []
  }

  function ShowScalar(name: string, t: Ty, off: nat, bits: nat, n: nat): seq<Visit> {
    var size := Span(t, off % 8, bits);
    if size > 0 && off / 8 + size <= n then [Visit(name, Number(t, off, bits))] else []
  }

  function ShowDump(name: string, off: nat, size: nat, n: nat): seq<Visit> {
    if size > 0 && off % 8 == 0 && off / 8 + size <= n then [Visit(name, Dump(off / 8, size))] else []
  }

  function Walk(prefix: string, members: seq<Member>, base: nat, n: nat): seq<Visit>
    decreases members, 0
  {
    if members == [] then [] else Walk(prefix, members[..|members| - 1], base, n) + WalkMember(prefix, members[|members| - 1], base, n)
  }

  /** Everything a comment shows of a key or value from its first `n` recorded bytes. */
  function Show(v: Bytes, n: nat): seq<Visit>
    requires v.Bytes?
  {
    if n == 0 then []
    else if !v.pointer then [Visit(v.name, Plain(n))]
    else
      match v.ty
      case VoidTy => [Visit(v.name, Dump(0, n))]
      case StructTy(members, hidden, raw) =>
        if raw then [Visit(v.name, Dump(0, n))] else if hidden then [] else Walk(v.name + "->", members, 0, n)
      case IntTy(_, _) => ShowScalar(v.name + "[0]", v.ty, 0, 0, n)
      case EnumTy(_, _) => ShowScalar(v.name + "[0]", v.ty, 0, 0, n)
      case ArrayTy(plain, _) => if plain then [Visit(v.name, Dump(0, n))] else []
      case UnionTy(_, plain, _) => if plain then [Visit(v.name, Dump(0, n))] else []
      case OtherTy => []
  }

  predicate Fits(v: Visit, n: nat) {
    v.what.Dump? ==> v.what.off + v.what.size <= n
  }

  lemma {:induction false} WalkFits(prefix: string, members: seq<Member>, base: nat, n: nat)
    ensures forall k | 0 <= k < |Walk(prefix, members, base, n)| :: Fits(Walk(prefix, members, base, n)[k], n)
    decreases members, 0
  {
    if members != [] {
      WalkFits(prefix, members[..|members| - 1], base, n);
      MemberFits(prefix, members[|members| - 1], base, n);
    }
  }

  lemma {:induction false} MemberFits(prefix: string, m: Member, base: nat, n: nat)
    ensures forall k | 0 <= k < |WalkMember(prefix, m, base, n)| :: Fits(WalkMember(prefix, m, base, n)[k], n)
    decreases m, 1
  {
    var off, name := base + m.off, prefix + m.name;
    if m.ty.StructTy? && !m.ty.hidden {
      WalkFits(if m.name == "" then prefix else name + ".", m.ty.members, off, n);
    } else if m.ty.UnionTy? && m.ty.plain && m.name == "" {
      WalkFits(prefix, m.ty.members, off, n);
    }
  }

  lemma {:induction false} ShowFits(v: Bytes, n: nat)
    requires v.Bytes?
    ensures forall k | 0 <= k < |Show(v, n)| :: Fits(Show(v, n)[k], n)
  {
    if v.ty.StructTy? {
      WalkFits(v.name + "->", v.ty.members, 0, n);
    }
  }

  // ---------------------------------------------------------------- the worst case

  /** What one visit can add, its separator included. */
  function Room(v: Visit): nat {
    1 + |v.name| + 1 + (if v.what.Dump? then 2 * v.what.size else MAX_DIGITS)
  }

  function Rooms(visits: seq<Visit>): nat {
    if visits == [] then 0 else Rooms(visits[..|visits| - 1]) + Room(visits[|visits| - 1])
  }

  function Max(a: nat, b: nat): nat {
    if a < b then b else a
  }

  /** One more item, after a separator unless it is the first. */
  function Add(n: nat, extra: nat): nat {
    (if n > 0 then n + 1 else n) + extra
  }

  function AddBytes(n: nat, v: Bytes): nat {
    if v.NoBytes? then n
    else
      var m := Add(n, Max(Rooms(Show(v, v.len)), |v.name| + 2));
      if v.len < v.size then Add(m, |v.name| + |"_bytes="| + 2 * MAX_DIGITS + 1) else m
  }

  function AddFields(fields: seq<Field>): nat {
    if fields == [] then 0 else Add(AddFields(fields[..|fields| - 1]), |fields[|fields| - 1].name| + 1 + MAX_DIGITS)
  }

  /** The bound checked against the option length before capturing. */
  function MaxCommentLen(l: Layout): nat {
    match l
    case Filter(fields) => AddFields(fields)
    case Entry(site, status, key, value) =>
      AddBytes(AddBytes(HeadRoom(l), key), value)
  }

  function HeadRoom(l: Layout): nat
    requires l.Entry?
  {
    var n := if l.site.Present? then Add(0, |"site"| + 1 + MAX_DIGITS) else 0;
    if l.status.Present? then Add(n, |l.status.name| + |"=0x"| + 16) else n
  }

  // ---------------------------------------------------------------- rendering

  function Sep(c: string): string {
    if c == [] then c else c + " "
  }

  /** The low `width` bits of `v` as a signed integer. */
  function SignExtend(v: nat, width: nat): int
    requires 1 <= width <= 64
  {
    var p := Pow(2, width - 1);
    var low := v % (2 * p);
    if low < p then low else low - 2 * p
  }

  lemma {:induction false} PowGrows(j: nat, k: nat)
    requires j <= k
    ensures Pow(2, j) <= Pow(2, k)
    decreases k
  {
    if j < k { PowGrows(j, k - 1); }
  }

  lemma {:induction false} PowTriples(k: nat)
    ensures Pow(2, 3 * k) == Pow(8, k)
  {
    if k > 0 {
      PowTriples(k - 1);
      assert Pow(2, 3 * k) == 2 * Pow(2, 3 * k - 1) && Pow(2, 3 * k - 1) == 2 * Pow(2, 3 * k - 2);
    }
  }

  lemma {:induction false} SignBounds(v: nat, width: nat)
    requires 1 <= width <= 64
    ensures 0 - U63 <= SignExtend(v, width) < U63
  {
    PowGrows(width - 1, 63);
    PowTriples(21);
    assert Pow(8, 21) == U63 by { assert Pow(8, 7) == 0x20_0000; assert Pow(8, 14) == 0x20_0000 * Pow(8, 7); }
  }

  function ShiftRight(v: nat, bit: nat): (r: nat)
    ensures r <= v
    decreases bit
  {
    if bit == 0 then v else ShiftRight(v / 2, bit - 1)
  }

  function LowBits(v: nat, bits: nat): (r: nat)
    ensures r <= v
    decreases bits
  {
    if bits == 0 then 0 else v % 2 + 2 * LowBits(v / 2, bits - 1)
  }

  predicate IsSigned(t: Ty) {
    (t.IntTy? && t.enc.Signed?) || (t.EnumTy? && t.signed)
  }

  /** The text of an integer of `span` bytes read at `bit` for `bits` bits (0: all of it). */
  function NumberText(t: Ty, raw: nat, bit: nat, bits: nat, span: nat): string
    requires IsScalar(t) && bits <= 64 && span <= 8 && (bits == 0 ==> 1 <= t.size <= 8)
  {
    var v := if bits > 0 then LowBits(ShiftRight(raw, bit), bits) else raw;
    if t.IntTy? && t.enc.Bool? then (if v != 0 then "true" else "false")
    else if IsSigned(t) then DecInt(SignExtend(v, if bits > 0 then bits else t.size * 8))
    else DecInt(v)
  }

  lemma {:induction false} NumberLength(t: Ty, raw: nat, bit: nat, bits: nat, span: nat)
    requires IsScalar(t) && bits <= 64 && span <= 8 && (bits == 0 ==> 1 <= t.size <= 8) && raw < U64
    ensures |NumberText(t, raw, bit, bits, span)| <= MAX_DIGITS
  {
    var v := if bits > 0 then LowBits(ShiftRight(raw, bit), bits) else raw;
    IntLength(v);
    var width := if bits > 0 then bits else t.size * 8;
    SignBounds(v, width);
    IntLength(SignExtend(v, width));
  }

  lemma {:induction false} SpanBits(t: Ty, bit: nat, bits: nat)
    requires Span(t, bit, bits) > 0
    ensures IsScalar(t) && bits <= 64 && (bits == 0 ==> 1 <= t.size <= 8)
  {
  }

  /** One visited item appended to the comment; an integer past the recorded bytes leaves it unchanged. */
  function Emit(c: string, v: Visit, data: seq<Byte>): string
    requires Fits(v, |data|)
  {
    match v.what
    case Plain(n) => Sep(c) + v.name + "=" + DecInt(ReadUint(data[..if n <= |data| then n else |data|]))
    case Dump(off, size) => Sep(c) + v.name + "=" + Hex(data[off..off + size])
    case Number(t, off, bits) =>
      var size := Span(t, off % 8, bits);
      if size == 0 || off / 8 + size > |data| then c
      else
        SpanBits(t, off % 8, bits);
        Sep(c) + v.name + "=" + NumberText(t, ReadUint(data[off / 8..off / 8 + size]), off % 8, bits, size)
  }

  lemma {:induction false} EmitBound(c: string, v: Visit, data: seq<Byte>)
    requires Fits(v, |data|)
    ensures |Emit(c, v, data)| <= |c| + Room(v)
  {
    match v.what {
      case Plain(n) =>
        var d := data[..if n <= |data| then n else |data|];
        ReadBound(d);
        IntLength(ReadUint(d));
      case Dump(_, _) =>
      case Number(t, off, bits) =>
        var size := Span(t, off % 8, bits);
        if size > 0 && off / 8 + size <= |data| {
          SpanBits(t, off % 8, bits);
          var d := data[off / 8..off / 8 + size];
          ReadBound(d);
          NumberLength(t, ReadUint(d), off % 8, bits, size);
        }
    }
  }

  predicate AllFit(visits: seq<Visit>, n: nat) {
    forall k | 0 <= k < |visits| :: Fits(visits[k], n)
  }

  function EmitAll(c: string, visits: seq<Visit>, data: seq<Byte>): string
    requires AllFit(visits, |data|)
  {
    if visits == [] then c
    else
      assert AllFit(visits[..|visits| - 1], |data|);
      Emit(EmitAll(c, visits[..|visits| - 1], data), visits[|visits| - 1], data)
  }

  lemma {:induction false} EmitAllBound(c: string, visits: seq<Visit>, data: seq<Byte>)
    requires AllFit(visits, |data|)
    ensures |EmitAll(c, visits, data)| <= |c| + Rooms(visits)
    decreases |visits|
  {
    if visits != [] {
      var rest := visits[..|visits| - 1];
      assert AllFit(rest, |data|);
      EmitAllBound(c, rest, data);
      EmitBound(EmitAll(c, rest, data), visits[|visits| - 1], data);
    }
  }

  function Marker(c: string, v: Bytes): string
    requires v.Bytes?
  {
    Sep(c) + v.name + "_bytes=" + DecInt(v.len) + "/" + DecInt(v.size)
  }

  /** A key or value: cut to nothing, not read, or shown with a marker when it was cut. */
  function BytesText(c: string, v: Bytes, data: seq<Byte>, valid: bool): string
    requires v.Bytes? ==> |data| == v.len
  {
    if v.NoBytes? then c
    else if v.len == 0 then (if v.size > 0 then Marker(c, v) else c)
    else if !valid then Sep(c) + v.name + "=?"
    else
      ShowFits(v, v.len);
      var shown := EmitAll(c, Show(v, v.len), data);
      if v.len < v.size then Marker(shown, v) else shown
  }

  // ---------------------------------------------------------------- the shared walker

  lemma {:induction false} RoomsAppend(a: seq<Visit>, b: seq<Visit>)
    ensures Rooms(a + b) == Rooms(a) + Rooms(b)
    decreases |b|
  {
    if b == [] {
      assert a + b == a;
    } else {
      var n := |b| - 1;
      RoomsAppend(a, b[..n]);
      assert (a + b)[..|a + b| - 1] == a + b[..n];
    }
  }

  lemma {:induction false} EmitAppend(c: string, a: seq<Visit>, b: seq<Visit>, data: seq<Byte>)
    requires AllFit(a, |data|) && AllFit(b, |data|)
    ensures AllFit(a + b, |data|) && EmitAll(c, a + b, data) == EmitAll(EmitAll(c, a, data), b, data)
    decreases |b|
  {
    if b == [] {
      assert a + b == a;
    } else {
      var n := |b| - 1;
      assert AllFit(b[..n], |data|);
      EmitAppend(c, a, b[..n], data);
      assert (a + b)[..|a + b| - 1] == a + b[..n];
    }
  }

  /** Renders the members it visits, or only adds up their worst case; both uses share one walk. */
  class MemberSink {
    const counting: bool
    const data: seq<Byte>
    const recorded: nat
    var c: string
    var n: nat

    /** To render the recorded bytes after `text`. */
    constructor Render(text: string, data: seq<Byte>)
      ensures !counting && this.data == data && recorded == |data| && c == text && n == 0
    {
      counting, this.data, recorded, c, n := false, data, |data|, text, 0;
    }

    /** To bound what `recorded` bytes may take. */
    constructor Count(recorded: nat)
      ensures counting && this.recorded == recorded && c == [] && n == 0
    {
      counting, data, this.recorded, c, n := true, [], recorded, [], 0;
    }

    ghost predicate Valid()
      reads this
    {
      counting || |data| == recorded
    }

    /** The sink after visiting `visits` from (c0, n0). */
    ghost predicate After(c0: string, n0: nat, visits: seq<Visit>)
      requires Valid() && AllFit(visits, recorded)
      reads this
    {
      if counting then c == c0 && n == n0 + Rooms(visits) else n == n0 && c == EmitAll(c0, visits, data)
    }

    method Visit(v: Visit)
      requires Valid() && Fits(v, recorded)
      modifies this
      ensures AllFit([v], recorded) && After(old(c), old(n), [v])
    {
      if counting {
        n := n + Room(v);
        assert [v][..0] == [];
      } else {
        c := Emit(c, v, data);
        assert [v][..0] == [];
      }
    }

    lemma {:induction false} AfterAppend(c0: string, n0: nat, c1: string, n1: nat, a: seq<Visit>, b: seq<Visit>)
      requires Valid() && AllFit(a, recorded) && AllFit(b, recorded) && After(c1, n1, b)
      requires if counting then c1 == c0 && n1 == n0 + Rooms(a) else n1 == n0 && c1 == EmitAll(c0, a, data)
      ensures AllFit(a + b, recorded) && After(c0, n0, a + b)
    {
      if counting {
        RoomsAppend(a, b);
      } else {
        EmitAppend(c0, a, b, data);
      }
    }

    method WalkMembers(prefix: string, members: seq<Member>, base: nat)
      requires Valid()
      modifies this
      ensures AllFit(Walk(prefix, members, base, recorded), recorded)
      ensures After(old(c), old(n), Walk(prefix, members, base, recorded))
      decreases members, 0
    {
      WalkFits(prefix, members, base, recorded);
      for k := 0 to |members|
        invariant AllFit(Walk(prefix, members[..k], base, recorded), recorded)
        invariant After(old(c), old(n), Walk(prefix, members[..k], base, recorded))
      {
        ghost var c1, n1 := c, n;
        ghost var done := Walk(prefix, members[..k], base, recorded);
        WalkOne(prefix, members[k], base);
        AfterAppend(old(c), old(n), c1, n1, done, WalkMember(prefix, members[k], base, recorded));
        assert members[..k + 1][..k] == members[..k];
      }
      assert members[..|members|] == members;
    }

    method WalkOne(prefix: string, m: Member, base: nat)
      requires Valid()
      modifies this
      ensures AllFit(WalkMember(prefix, m, base, recorded), recorded)
      ensures After(old(c), old(n), WalkMember(prefix, m, base, recorded))
      decreases m, 1
    {
      MemberFits(prefix, m, base, recorded);
      var off, name := base + m.off, prefix + m.name;
      match m.ty {
        case StructTy(members, hidden, _) =>
          if !hidden {
            WalkMembers(if m.name == "" then prefix else name + ".", members, off);
          }
        case IntTy(_, _) => VisitAll(ShowScalar(name, m.ty, off, m.bits, recorded));
        case EnumTy(_, _) => VisitAll(ShowScalar(name, m.ty, off, m.bits, recorded));
        case UnionTy(members, plain, size) =>
          if plain {
            if m.name == "" {
              WalkMembers(prefix, members, off);
            } else {
              VisitAll(ShowDump(name, off, size, recorded));
            }
          }
        case ArrayTy(plain, size) =>
          if plain {
            VisitAll(ShowDump(name, off, size, recorded));
          }
        case VoidTy =>
        case OtherTy =>
      }
    }

    /** At most one item: the member is shown or it is not. */
    method VisitAll(visits: seq<Visit>)
      requires Valid() && |visits| <= 1 && AllFit(visits, recorded)
      modifies this
      ensures After(old(c), old(n), visits)
    {
      if visits != [] {
        Visit(visits[0]);
        assert visits == [visits[0]];
      }
    }

    /** A key or value, by its top-level shape. */
    method ShowBytes(v: Bytes)
      requires Valid() && v.Bytes?
      modifies this
      ensures AllFit(Show(v, recorded), recorded) && After(old(c), old(n), Show(v, recorded))
    {
      ShowFits(v, recorded);
      if recorded > 0 && v.pointer && v.ty.StructTy? && !v.ty.raw && !v.ty.hidden {
        WalkMembers(v.name + "->", v.ty.members, 0);
      } else {
        VisitAll(Show(v, recorded));
      }
    }
  }

  // ---------------------------------------------------------------- each item stays within its room

  /** The comment so far, when the bound so far is `n`: the caller's own text, a separator after it, and `n`. */
  predicate Bounded(dst: string, c: string, n: nat) {
    (n == 0 ==> c == dst) && |c| <= |Sep(dst)| + n
  }

  predicate BytesOk(v: Bytes) {
    v.Bytes? ==> v.size < U32 && v.len < U32
  }

  lemma {:induction false} MarkerBound(c: string, v: Bytes)
    requires v.Bytes? && BytesOk(v)
    ensures |Marker(c, v)| <= |Sep(c)| + |v.name| + |"_bytes="| + 2 * MAX_DIGITS + 1
  {
    IntLength(v.len);
    IntLength(v.size);
  }

  /** An item of at most `extra` after its separator keeps the bound. */
  lemma {:induction false} ItemBounded(dst: string, c: string, n: nat, c': string, extra: nat)
    requires Bounded(dst, c, n) && |c'| <= |Sep(c)| + extra && extra > 0
    ensures Bounded(dst, c', Add(n, extra))
  {
  }

  lemma {:induction false} BytesBounded(dst: string, c: string, n: nat, v: Bytes, data: seq<Byte>, valid: bool)
    requires Bounded(dst, c, n) && BytesOk(v) && (v.Bytes? ==> |data| == v.len)
    ensures Bounded(dst, BytesText(c, v, data, valid), AddBytes(n, v))
  {
    if v.Bytes? {
      var rooms := Rooms(Show(v, v.len));
      var extra := Max(rooms, |v.name| + 2);
      var m := Add(n, extra);
      ShowFits(v, v.len);
      if v.len == 0 || !valid {
        assert Bounded(dst, c, n);
        MarkerBound(c, v);
      } else {
        EmitAllBound(c, Show(v, v.len), data);
        var shown := EmitAll(c, Show(v, v.len), data);
        ItemBounded(dst, c, n, shown, extra);
        MarkerBound(shown, v);
      }
    }
  }

  // ---------------------------------------------------------------- whole comments

  const VALID_SITE := 0
  const VALID_STATUS := 1
  const VALID_KEY := 2
  const VALID_VALUE := 3

  /** A record block as its header check leaves it: which fields were read, and their bytes. */
  datatype Block = Block(valid: nat -> bool, words: seq<nat>, site: nat, status: nat, key: seq<Byte>, value: seq<Byte>)

  predicate BlockOk(l: Layout, b: Block) {
    match l
    case Filter(fields) => |b.words| == |fields| && forall i | 0 <= i < |fields| :: b.words[i] < U64
    case Entry(_, _, key, value) => |b.key| == LenOf(key) && |b.value| == LenOf(value) && b.site < U32 && b.status < U64
  }

  function FieldText(c: string, f: Field, v: nat, valid: bool): string
    requires v < U64
  {
    if !valid then Sep(c) + f.name + "=?"
    else if f.pointer then Sep(c) + f.name + (if v == 0 then "=null" else "!=null")
    else Sep(c) + f.name + "=" + DecInt(if f.signed then SignExtend(v, 64) else v)
  }

  lemma {:induction false} FieldBound(c: string, f: Field, v: nat, valid: bool)
    requires v < U64
    ensures |FieldText(c, f, v, valid)| <= |Sep(c)| + |f.name| + 1 + MAX_DIGITS
  {
    SignBounds(v, 64);
    IntLength(if f.signed then SignExtend(v, 64) else v);
  }

  function FieldsText(c: string, fields: seq<Field>, b: Block): string
    requires |fields| <= |b.words| && forall i | 0 <= i < |fields| :: b.words[i] < U64
  {
    if fields == [] then c
    else
      var n := |fields| - 1;
      FieldText(FieldsText(c, fields[..n], b), fields[n], b.words[n], b.valid(n))
  }

  /** A 4-byte info word is the site by another name. */
  function SiteName(s: Scalar): string
    requires s.Present?
  {
    if s.name == "info" && s.size == 4 then "site" else s.name
  }

  function ScalarText(c: string, s: Scalar, name: string, text: string, valid: bool): string {
    if s.Absent? then c else if !valid then Sep(c) + name + "=?" else Sep(c) + name + "=" + text
  }

  function SiteText(c: string, l: Layout, b: Block): string
    requires l.Entry?
  {
    ScalarText(c, l.site, if l.site.Present? then SiteName(l.site) else "", DecInt(b.site), b.valid(VALID_SITE))
  }

  function StatusText(c: string, l: Layout, b: Block): string
    requires l.Entry?
  {
    ScalarText(c, l.status, if l.status.Present? then l.status.name else "", "0x" + HexWord(b.status, 16), b.valid(VALID_STATUS))
  }

  function CommentText(l: Layout, dst: string, b: Block): string
    requires BlockOk(l, b)
  {
    match l
    case Filter(fields) => FieldsText(dst, fields, b)
    case Entry(_, _, key, value) =>
      var c := StatusText(SiteText(dst, l, b), l, b);
      BytesText(BytesText(c, key, b.key, b.valid(VALID_KEY)), value, b.value, b.valid(VALID_VALUE))
  }

  /** A key or value, rendered by the shared walker. */
  method AppendBytes(c: string, v: Bytes, data: seq<Byte>, valid: bool) returns (r: string)
    requires v.Bytes? ==> |data| == v.len
    ensures r == BytesText(c, v, data, valid)
  {
    if v.NoBytes? {
      return c;
    }
    if v.len == 0 {
      return if v.size > 0 then Marker(c, v) else c;
    }
    if !valid {
      return Sep(c) + v.name + "=?";
    }
    var sink := new MemberSink.Render(c, data);
    sink.ShowBytes(v);
    r := sink.c;
    if v.len < v.size {
      r := Marker(r, v);
    }
  }

  /** Renders the fields of a filter's record. */
  method AppendFields(fields: seq<Field>, dst: string, b: Block) returns (c: string)
    requires |b.words| == |fields| && forall i | 0 <= i < |fields| :: b.words[i] < U64
    ensures c == FieldsText(dst, fields, b)
  {
    c := dst;
    for i := 0 to |fields|
      invariant c == FieldsText(dst, fields[..i], b)
    {
      c := FieldText(c, fields[i], b.words[i], b.valid(i));
      assert fields[..i + 1][..i] == fields[..i];
    }
    assert fields[..|fields|] == fields;
  }

  /** Renders a block onto `dst`. */
  method AppendComment(l: Layout, dst: string, b: Block) returns (c: string)
    requires BlockOk(l, b)
    ensures c == CommentText(l, dst, b)
  {
    if l.Filter? {
      c := AppendFields(l.fields, dst, b);
      return;
    }
    c := SiteText(dst, l, b);
    c := StatusText(c, l, b);
    c := AppendBytes(c, l.key, b.key, b.valid(VALID_KEY));
    c := AppendBytes(c, l.value, b.value, b.valid(VALID_VALUE));
  }

  /** One key or value's share of the bound, counted by the shared walker. */
  method CountBytes(n: nat, v: Bytes) returns (m: nat)
    ensures m == AddBytes(n, v)
  {
    if v.NoBytes? {
      return n;
    }
    var sink := new MemberSink.Count(v.len);
    sink.ShowBytes(v);
    m := Add(n, Max(sink.n, |v.name| + 2));
    if v.len < v.size {
      m := Add(m, |v.name| + |"_bytes="| + 2 * MAX_DIGITS + 1);
    }
  }

  /** The bound, computed before any packet is captured. */
  method BoundComment(l: Layout) returns (n: nat)
    ensures n == MaxCommentLen(l)
  {
    n := 0;
    if l.Filter? {
      for i := 0 to |l.fields|
        invariant n == AddFields(l.fields[..i])
      {
        n := Add(n, |l.fields[i].name| + 1 + MAX_DIGITS);
        assert l.fields[..i + 1][..i] == l.fields[..i];
      }
      assert l.fields[..|l.fields|] == l.fields;
      return;
    }
    if l.site.Present? {
      n := Add(n, |"site"| + 1 + MAX_DIGITS);
    }
    if l.status.Present? {
      n := Add(n, |l.status.name| + |"=0x"| + 16);
    }
    n := CountBytes(n, l.key);
    n := CountBytes(n, l.value);
  }

  /** What a layout must satisfy: sizes are 32-bit, and the site's shown name leaves room for a 32-bit value
      where the bound reserves `site` and a 64-bit one. */
  predicate LayoutOk(l: Layout) {
    l.Entry? ==> BytesOk(l.key) && BytesOk(l.value) && (l.site.Present? ==> |SiteName(l.site)| <= |"site"| + 10)
  }

  lemma {:induction false} FieldsBounded(dst: string, fields: seq<Field>, b: Block)
    requires |fields| <= |b.words| && forall i | 0 <= i < |fields| :: b.words[i] < U64
    ensures Bounded(dst, FieldsText(dst, fields, b), AddFields(fields))
    decreases |fields|
  {
    if fields != [] {
      var n := |fields| - 1;
      FieldsBounded(dst, fields[..n], b);
      var c := FieldsText(dst, fields[..n], b);
      FieldBound(c, fields[n], b.words[n], b.valid(n));
      ItemBounded(dst, c, AddFields(fields[..n]), FieldsText(dst, fields, b), |fields[n].name| + 1 + MAX_DIGITS);
    }
  }

  /** Appended to any text, a comment takes at most a separator and the bound; on an empty buffer, at most the
      bound. */
  lemma {:induction false} CommentIsBounded(l: Layout, dst: string, b: Block)
    requires LayoutOk(l) && BlockOk(l, b)
    ensures |CommentText(l, dst, b)| <= |Sep(dst)| + MaxCommentLen(l)
  {
    match l {
      case Filter(fields) => FieldsBounded(dst, fields, b);
      case Entry(site, status, key, value) =>
        var m, c := HeadRoom(l), StatusText(SiteText(dst, l, b), l, b);
        HeadBounded(l, dst, b);
        BytesBounded(dst, c, m, key, b.key, b.valid(VALID_KEY));
        BytesBounded(dst, BytesText(c, key, b.key, b.valid(VALID_KEY)), AddBytes(m, key), value, b.value, b.valid(VALID_VALUE));
    }
  }

  lemma {:induction false} HeadBounded(l: Layout, dst: string, b: Block)
    requires l.Entry? && LayoutOk(l) && b.site < U32
    ensures Bounded(dst, StatusText(SiteText(dst, l, b), l, b), HeadRoom(l))
  {
    var n := if l.site.Present? then Add(0, |"site"| + 1 + MAX_DIGITS) else 0;
    var c := SiteText(dst, l, b);
    IntLength(b.site);
    if l.site.Present? {
      ItemBounded(dst, dst, 0, c, |"site"| + 1 + MAX_DIGITS);
    }
    if l.status.Present? {
      ItemBounded(dst, c, n, StatusText(c, l, b), |l.status.name| + |"=0x"| + 16);
    }
  }

  /** The exit-mode prefix the writer puts before a record's comment. */
  function ReturnPrefix(action: nat): (s: string)
    ensures |s| == 17
  {
    "return=0x" + HexWord(action, 8)
  }

  const RETURN_PREFIX_LEN := |"return=0x00000000 "|

  /** With the prefix, at most the prefix's room more. */
  lemma {:induction false} PrefixedIsBounded(l: Layout, action: nat, b: Block)
    requires LayoutOk(l) && BlockOk(l, b)
    ensures |CommentText(l, ReturnPrefix(action), b)| <= RETURN_PREFIX_LEN + MaxCommentLen(l)
    ensures |CommentText(l, [], b)| <= MaxCommentLen(l)
  {
    CommentIsBounded(l, ReturnPrefix(action), b);
    CommentIsBounded(l, [], b);
  }

  /** For a layout of just a site the condition on its name is exact.  The program names its sites `site` or `info`,
      which both meet it. */
  lemma {:induction false} SiteBoundIsExact(name: string)
    ensures var l := Entry(Present(name, 4), Absent, NoBytes, NoBytes);
      LayoutOk(l) <==> forall b: Block | BlockOk(l, b) :: |CommentText(l, [], b)| <= MaxCommentLen(l)
  {
    var l := Entry(Present(name, 4), Absent, NoBytes, NoBytes);
    if LayoutOk(l) {
      forall b: Block | BlockOk(l, b)
        ensures |CommentText(l, [], b)| <= MaxCommentLen(l)
      {
        CommentIsBounded(l, [], b);
      }
    } else {
      LongSiteNameOverflows(name, Block(_ => true, [], U32 - 1, 0, [], []));
    }
  }

  /** A longer site name breaks the bound. */
  lemma {:induction false} LongSiteNameOverflows(name: string, b: Block)
    requires name != "info" && |name| > |"site"| + 10 && b.site == U32 - 1 && b.valid(VALID_SITE)
    ensures var l := Entry(Present(name, 4), Absent, NoBytes, NoBytes);
      BlockOk(l, b.(key := [], value := [], status := 0)) && |CommentText(l, [], b.(key := [], value := [], status := 0))| > MaxCommentLen(l)
  {
    TenDigits();
  }

  lemma {:induction false} TenDigits()
    ensures |DecInt(4_294_967_295)| == 10
  {
    DigitMore(4_294_967_295);
    DigitMore(429_496_729);
    DigitMore(42_949_672);
    DigitMore(4_294_967);
    DigitMore(429_496);
    DigitMore(42_949);
    DigitMore(4_294);
    DigitMore(429);
    DigitMore(42);
    assert |Dec(4)| == 1;
  }

  lemma {:induction false} DigitMore(n: nat)
    requires n >= 10
    ensures |Dec(n)| == |Dec(n / 10)| + 1
  {
  }
}
