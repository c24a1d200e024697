/** Length-prefixed canonical encodings: fields, the buffer they are written to,
    and why equal bytes of one shape are equal fields. */
module Encoding {
  import opened Basics

  type Byte = b: int | 0 <= b < 256

  type Bytes = seq<Byte>

  const UINT32: nat := 0x1_0000_0000
  const UINT64: nat := 0x1_0000_0000_0000_0000
  const DIGEST: nat := 32

  /** The low bytes of a number, most significant first. */
  function BigEndian(n: nat, width: nat): (s: Bytes)
    ensures |s| == width
  {
    if width == 0 then [] else BigEndian(n / 256, width - 1) + [n % 256]
  }

  function Unsigned(s: Bytes): nat {
    if s == [] then 0 else Unsigned(s[..|s| - 1]) * 256 + s[|s| - 1]
  }

  function Capacity(width: nat): (c: nat)
    ensures c > 0
  {
    if width == 0 then 1 else 256 * Capacity(width - 1)
  }

  lemma {:induction false} BigEndianReads(n: nat, width: nat)
    requires n < Capacity(width)
    ensures Unsigned(BigEndian(n, width)) == n
  {
    if width > 0 {
      assert n / 256 < Capacity(width - 1);
      BigEndianReads(n / 256, width - 1);
      assert BigEndian(n, width)[..width - 1] == BigEndian(n / 256, width - 1);
    }
  }

  lemma Widths()
    ensures Capacity(4) == UINT32 && Capacity(8) == UINT64
  {
    assert Capacity(2) == 65536 && Capacity(4) == 65536 * 65536;
    assert Capacity(6) == 65536 * Capacity(4) && Capacity(8) == 65536 * Capacity(6);
  }

  /** Two's complement. */
  function Wrap(n: Int64): nat {
    if n < 0 then n + UINT64 else n
  }

  datatype Field =
    | Text(text: Bytes)
    | Number(number: Int64)
    | Raw(raw: Bytes)
    | Count(count: nat)
    | Numbers(numbers: seq<Int64>)

  function EncodeNumbers(ns: seq<Int64>): Bytes {
    if ns == [] then [] else EncodeNumbers(ns[..|ns| - 1]) + BigEndian(Wrap(ns[|ns| - 1]), 8)
  }

  /** A text longer than 32 bits can count would have its length cut short. */
  function Encode(f: Field): Bytes {
    match f
    case Text(t) => BigEndian(|t| % UINT32, 4) + t
    case Number(n) => BigEndian(Wrap(n), 8)
    case Raw(r) => r
    case Count(c) => BigEndian(c % UINT32, 4)
    case Numbers(ns) => BigEndian(|ns| % UINT32, 4) + EncodeNumbers(ns)
  }

  function EncodeAll(fs: seq<Field>): Bytes {
    if fs == [] then [] else EncodeAll(fs[..|fs| - 1]) + Encode(fs[|fs| - 1])
  }

  predicate Fits(f: Field) {
    match f
    case Text(t) => |t| < UINT32
    case Number(_) => true
    case Raw(r) => |r| == DIGEST
    case Count(c) => c < UINT32
    case Numbers(ns) => |ns| < UINT32
  }

  predicate SameKind(f: Field, g: Field) {
    match f
    case Text(_) => g.Text?
    case Number(_) => g.Number?
    case Raw(_) => g.Raw?
    case Count(_) => g.Count?
    case Numbers(_) => g.Numbers?
  }

  predicate AllFit(fs: seq<Field>) {
    forall i :: 0 <= i < |fs| ==> Fits(fs[i])
  }

  predicate SameShape(fs: seq<Field>, gs: seq<Field>) {
    |fs| == |gs| && forall i :: 0 <= i < |fs| ==> SameKind(fs[i], gs[i])
  }

  /** What the bytes of a field say: numbers and lengths most significant byte
      first, a negative number by its two's complement, texts and digests as they
      are. */
  lemma EncodedReads(f: Field)
    requires Fits(f)
    ensures f.Text? ==> |Encode(f)| == 4 + |f.text| && Unsigned(Encode(f)[..4]) == |f.text| && Encode(f)[4..] == f.text
    ensures f.Number? ==>
              |Encode(f)| == 8 && (0 <= f.number ==> Unsigned(Encode(f)) == f.number)
              && (f.number < 0 ==> Unsigned(Encode(f)) == UINT64 + f.number)
    ensures f.Raw? ==> Encode(f) == f.raw
    ensures f.Count? ==> |Encode(f)| == 4 && Unsigned(Encode(f)) == f.count
    ensures f.Numbers? ==> |Encode(f)| >= 4 && Unsigned(Encode(f)[..4]) == |f.numbers|
  {
    Widths();
    hide BigEndian;
    hide Unsigned;
    hide Capacity;
    match f
    case Text(t) =>
      BigEndianReads(|t|, 4);
      assert Encode(f)[..4] == BigEndian(|t|, 4);
    case Number(n) => BigEndianReads(Wrap(n), 8);
    case Raw(_) =>
    case Count(c) => BigEndianReads(c, 4);
    case Numbers(ns) =>
      BigEndianReads(|ns|, 4);
      assert Encode(f)[..4] == BigEndian(|ns|, 4);
  }

  // ------------------------------------------------------------- injectivity

  lemma SplitsAlike<T>(a: seq<T>, b: seq<T>, s: seq<T>, t: seq<T>)
    requires a + s == b + t && |a| == |b|
    ensures a == b && s == t
  {
    assert a == (a + s)[..|a|] && b == (b + t)[..|b|];
    assert s == (a + s)[|a|..] && t == (b + t)[|b|..];
  }

  lemma BigEndianCancels(m: nat, n: nat, width: nat, s: Bytes, t: Bytes)
    requires m < Capacity(width) && n < Capacity(width)
    requires BigEndian(m, width) + s == BigEndian(n, width) + t
    ensures m == n && s == t
  {
    SplitsAlike(BigEndian(m, width), BigEndian(n, width), s, t);
    BigEndianReads(m, width);
    BigEndianReads(n, width);
  }

  lemma NumberCancels(m: Int64, n: Int64, s: Bytes, t: Bytes)
    requires BigEndian(Wrap(m), 8) + s == BigEndian(Wrap(n), 8) + t
    ensures m == n && s == t
  {
    hide BigEndian;
    Widths();
    BigEndianCancels(Wrap(m), Wrap(n), 8, s, t);
  }

  lemma {:induction false} NumbersCancel(ms: seq<Int64>, ns: seq<Int64>, s: Bytes, t: Bytes)
    requires |ms| == |ns| && EncodeNumbers(ms) + s == EncodeNumbers(ns) + t
    ensures ms == ns && s == t
    decreases |ms|
  {
    hide BigEndian;
    if ms == [] {
      assert [] + s == s && [] + t == t;
    } else {
      var k := |ms| - 1;
      var m, n := BigEndian(Wrap(ms[k]), 8), BigEndian(Wrap(ns[k]), 8);
      assert EncodeNumbers(ms) + s == EncodeNumbers(ms[..k]) + (m + s);
      assert EncodeNumbers(ns) + t == EncodeNumbers(ns[..k]) + (n + t);
      NumbersCancel(ms[..k], ns[..k], m + s, n + t);
      NumberCancels(ms[k], ns[k], s, t);
      assert ms == ms[..k] + [ms[k]] && ns == ns[..k] + [ns[k]];
    }
  }

  lemma CountCancels(m: nat, n: nat, s: Bytes, t: Bytes)
    requires m < UINT32 && n < UINT32 && BigEndian(m, 4) + s == BigEndian(n, 4) + t
    ensures m == n && s == t
  {
    hide BigEndian;
    SplitsAlike(BigEndian(m, 4), BigEndian(n, 4), s, t);
    SameCount(m, n);
  }

  lemma Associative(a: Bytes, b: Bytes, c: Bytes)
    ensures (a + b) + c == a + (b + c)
  {
  }

  lemma PrefixCancels(p: Bytes, q: Bytes, x: Bytes, y: Bytes, s: Bytes, t: Bytes)
    requires |p| == |q| && (p + x) + s == (q + y) + t
    ensures p == q && x + s == y + t
  {
    Associative(p, x, s);
    Associative(q, y, t);
    SplitsAlike(p, q, x + s, y + t);
  }

  lemma SameCount(m: nat, n: nat)
    requires m < UINT32 && n < UINT32 && BigEndian(m, 4) == BigEndian(n, 4)
    ensures m == n
  {
    hide BigEndian;
    Widths();
    BigEndianReads(m, 4);
    BigEndianReads(n, 4);
  }

  lemma TextCancels(x: Bytes, y: Bytes, s: Bytes, t: Bytes)
    requires |x| < UINT32 && |y| < UINT32
    requires (BigEndian(|x|, 4) + x) + s == (BigEndian(|y|, 4) + y) + t
    ensures x == y && s == t
  {
    hide BigEndian;
    PrefixCancels(BigEndian(|x|, 4), BigEndian(|y|, 4), x, y, s, t);
    SameCount(|x|, |y|);
    SplitsAlike(x, y, s, t);
  }

  lemma CountedNumbersCancel(ms: seq<Int64>, ns: seq<Int64>, s: Bytes, t: Bytes)
    requires |ms| < UINT32 && |ns| < UINT32
    requires (BigEndian(|ms|, 4) + EncodeNumbers(ms)) + s == (BigEndian(|ns|, 4) + EncodeNumbers(ns)) + t
    ensures ms == ns && s == t
  {
    hide BigEndian;
    hide EncodeNumbers;
    PrefixCancels(BigEndian(|ms|, 4), BigEndian(|ns|, 4), EncodeNumbers(ms), EncodeNumbers(ns), s, t);
    SameCount(|ms|, |ns|);
    NumbersCancel(ms, ns, s, t);
  }

  lemma FullLengths(f: Field)
    requires Fits(f)
    ensures f.Text? ==> Encode(f) == BigEndian(|f.text|, 4) + f.text
    ensures f.Numbers? ==> Encode(f) == BigEndian(|f.numbers|, 4) + EncodeNumbers(f.numbers)
    ensures f.Count? ==> Encode(f) == BigEndian(f.count, 4)
    ensures f.Number? ==> Encode(f) == BigEndian(Wrap(f.number), 8)
    ensures f.Raw? ==> Encode(f) == f.raw
  {
    hide BigEndian;
    hide EncodeNumbers;
  }

  /** Equal bytes of one field of a known kind: the field and the rest are equal. */
  lemma FieldCancels(f: Field, g: Field, s: Bytes, t: Bytes)
    requires SameKind(f, g) && Fits(f) && Fits(g) && Encode(f) + s == Encode(g) + t
    ensures f == g && s == t
  {
    hide BigEndian;
    hide EncodeNumbers;
    hide Encode;
    FullLengths(f);
    FullLengths(g);
    match f
    case Number(m) => NumberCancels(m, g.number, s, t);
    case Raw(r) => SplitsAlike(r, g.raw, s, t);
    case Count(c) => CountCancels(c, g.count, s, t);
    case Text(x) => TextCancels(x, g.text, s, t);
    case Numbers(ns) => CountedNumbersCancel(ns, g.numbers, s, t);
  }

  /** Field lists of one shape with equal bytes are equal, whatever follows them. */
  lemma {:induction false} FieldsCancel(fs: seq<Field>, gs: seq<Field>, s: Bytes, t: Bytes)
    requires SameShape(fs, gs) && AllFit(fs) && AllFit(gs)
    requires EncodeAll(fs) + s == EncodeAll(gs) + t
    ensures fs == gs && s == t
    decreases |fs|
  {
    hide Encode;
    if fs == [] {
      assert [] + s == s && [] + t == t;
    } else {
      var k := |fs| - 1;
      assert EncodeAll(fs) + s == EncodeAll(fs[..k]) + (Encode(fs[k]) + s);
      assert EncodeAll(gs) + t == EncodeAll(gs[..k]) + (Encode(gs[k]) + t);
      FieldsCancel(fs[..k], gs[..k], Encode(fs[k]) + s, Encode(gs[k]) + t);
      FieldCancels(fs[k], gs[k], s, t);
      assert fs == fs[..k] + [fs[k]] && gs == gs[..k] + [gs[k]];
    }
  }

  lemma {:induction false} EncodeConcat(fs: seq<Field>, gs: seq<Field>)
    ensures EncodeAll(fs + gs) == EncodeAll(fs) + EncodeAll(gs)
    decreases |gs|
  {
    hide Encode;
    if gs == [] {
      assert fs + gs == fs;
    } else {
      var k, all := |gs| - 1, fs + gs;
      EncodeConcat(fs, gs[..k]);
      assert all[..|all| - 1] == fs + gs[..k] && all[|all| - 1] == gs[k];
      Regroup(EncodeAll(fs), EncodeAll(gs[..k]), Encode(gs[k]));
    }
  }

  lemma Regroup(a: Bytes, b: Bytes, c: Bytes)
    ensures a + (b + c) == (a + b) + c
  {
  }

  // ------------------------------------------------------------------ digests

  function Nibble(c: char): Option<int> {
    if '0' <= c <= '9' then Some(c as int - '0' as int)
    else if 'a' <= c <= 'f' then Some(c as int - 'a' as int + 10)
    else None
  }

  /** Lowercase hexadecimal, two characters a byte. */
  function FromHex(hex: string): Option<Bytes> {
    if hex == [] then Some([])
    else if |hex| == 1 then None
    else
      var hi, lo, rest := Nibble(hex[0]), Nibble(hex[1]), FromHex(hex[2..]);
      if hi.None? || lo.None? || rest.None? then None
      else Some([hi.value * 16 + lo.value] + rest.value)
  }

  function DecodeDigest(hex: string): (r: Option<Bytes>)
    ensures r.Some? ==> |r.value| == DIGEST
  {
    HexLength(hex);
    if |hex| != 2 * DIGEST then None else FromHex(hex)
  }

  lemma {:induction false} HexLength(hex: string)
    ensures FromHex(hex).Some? ==> 2 * |FromHex(hex).value| == |hex|
    decreases |hex|
  {
    if |hex| > 1 { HexLength(hex[2..]); }
  }

  function HexDigit(d: nat): char
    requires d < 16
  {
    "0123456789abcdef"[d]
  }

  function ToHex(b: Bytes): string {
    if b == [] then "" else [HexDigit(b[0] / 16), HexDigit(b[0] % 16)] + ToHex(b[1..])
  }

  lemma NibbleReads(d: nat)
    requires d < 16
    ensures Nibble(HexDigit(d)) == Some(d)
  {
  }

  /** Writing bytes in lowercase hexadecimal and reading them gives them back. */
  lemma {:induction false} HexRoundTrip(b: Bytes)
    ensures FromHex(ToHex(b)) == Some(b)
  {
    hide HexDigit;
    hide Nibble;
    if b != [] {
      HexRoundTrip(b[1..]);
      NibbleReads(b[0] / 16);
      NibbleReads(b[0] % 16);
      assert ToHex(b)[2..] == ToHex(b[1..]);
      assert b == [b[0]] + b[1..];
    }
  }

  lemma NibbleInjective(c: char, d: char)
    requires Nibble(c).Some? && Nibble(c) == Nibble(d)
    ensures c == d
  {
  }

  lemma {:induction false} HexInjective(hex: string, other: string)
    requires FromHex(hex).Some? && FromHex(hex) == FromHex(other)
    ensures hex == other
    decreases |hex|
  {
    HexLength(hex);
    HexLength(other);
    if hex != [] {
      var b, c := FromHex(hex).value, FromHex(other).value;
      assert b[0] == c[0] && b[1..] == FromHex(hex[2..]).value && c[1..] == FromHex(other[2..]).value;
      HexInjective(hex[2..], other[2..]);
      NibbleInjective(hex[0], other[0]);
      NibbleInjective(hex[1], other[1]);
      assert hex == [hex[0], hex[1]] + hex[2..] && other == [other[0], other[1]] + other[2..];
    }
  }

  predicate IsHex(hex: string) {
    forall i :: 0 <= i < |hex| ==> Nibble(hex[i]).Some?
  }

  /** What is read is exactly the texts so written: pairs of the sixteen digits. */
  lemma {:induction false} HexIsRead(hex: string)
    ensures FromHex(hex).Some? <==> |hex| % 2 == 0 && IsHex(hex)
    ensures FromHex(hex).Some? ==> ToHex(FromHex(hex).value) == hex
    decreases |hex|
  {
    hide HexDigit;
    hide Nibble;
    if |hex| > 1 {
      HexIsRead(hex[2..]);
      PairThenRest(hex);
    }
    if FromHex(hex).Some? {
      HexRoundTrip(FromHex(hex).value);
      HexInjective(hex, ToHex(FromHex(hex).value));
    }
  }

  lemma PairThenRest(hex: string)
    requires |hex| > 1
    ensures IsHex(hex) <==> Nibble(hex[0]).Some? && Nibble(hex[1]).Some? && IsHex(hex[2..])
  {
    hide Nibble;
    if IsHex(hex[2..]) && Nibble(hex[0]).Some? && Nibble(hex[1]).Some? {
      forall i | 0 <= i < |hex| ensures Nibble(hex[i]).Some? {
        if i >= 2 { assert hex[i] == hex[2..][i - 2]; }
      }
    }
  }

  // ------------------------------------------------------------------ buffer

  lemma Reassociate(a: Bytes, b: Bytes, c: Bytes, d: Bytes)
    ensures (a + (b + c)) + d == a + (b + (c + d))
  {
  }

  /** The buffer an encoder appends to, and the fields it has appended. */
  class Buffer {
    const domain: Bytes
    var bytes: Bytes
    ghost var fields: seq<Field>

    ghost predicate Valid()
      reads this
    {
      bytes == domain + EncodeAll(fields)
    }

    constructor (domain: Bytes)
      ensures Valid() && this.domain == domain && fields == []
    {
      this.domain := domain;
      bytes, fields := domain, [];
    }

    lemma Appends(f: Field)
      requires Valid()
      ensures bytes + Encode(f) == domain + EncodeAll(fields + [f])
    {
      hide Encode;
      assert (fields + [f])[..|fields|] == fields;
      assert bytes + Encode(f) == domain + (EncodeAll(fields) + Encode(f));
    }

    method WriteString(t: Bytes)
      requires Valid()
      modifies this
      ensures Valid() && fields == old(fields) + [Text(t)]
    {
      hide EncodeAll;
      hide BigEndian;
      Appends(Text(t));
      assert bytes + Encode(Text(t)) == bytes + BigEndian(|t| % UINT32, 4) + t;
      bytes := bytes + BigEndian(|t| % UINT32, 4);
      bytes := bytes + t;
      fields := fields + [Text(t)];
    }

    method WriteInt64(n: Int64)
      requires Valid()
      modifies this
      ensures Valid() && fields == old(fields) + [Number(n)]
    {
      Appends(Number(n));
      bytes := bytes + BigEndian(Wrap(n), 8);
      fields := fields + [Number(n)];
    }

    method WriteRaw(r: Bytes)
      requires Valid()
      modifies this
      ensures Valid() && fields == old(fields) + [Raw(r)]
    {
      Appends(Raw(r));
      bytes := bytes + r;
      fields := fields + [Raw(r)];
    }

    method WriteUint32(c: nat)
      requires Valid()
      modifies this
      ensures Valid() && fields == old(fields) + [Count(c)]
    {
      Appends(Count(c));
      bytes := bytes + BigEndian(c % UINT32, 4);
      fields := fields + [Count(c)];
    }

    /** A count and then the numbers, one by one. */
    method WriteInt64s(ns: seq<Int64>)
      requires Valid()
      modifies this
      ensures Valid() && fields == old(fields) + [Numbers(ns)]
    {
      hide BigEndian;
      Appends(Numbers(ns));
      var head := BigEndian(|ns| % UINT32, 4);
      var i := 0;
      bytes := bytes + head;
      while i < |ns|
        invariant 0 <= i <= |ns| && fields == old(fields)
        invariant bytes == old(bytes) + (head + EncodeNumbers(ns[..i]))
      {
        assert ns[..i + 1][..i] == ns[..i];
        ghost var next := BigEndian(Wrap(ns[i]), 8);
        Reassociate(old(bytes), head, EncodeNumbers(ns[..i]), next);
        bytes := bytes + BigEndian(Wrap(ns[i]), 8);
        i := i + 1;
      }
      assert ns[..i] == ns;
      fields := fields + [Numbers(ns)];
    }
  }
}
