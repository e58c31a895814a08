/**
 Borsh layouts (the Borsh specification, borsh.io) as codecs that compose. A codec
 is exact when decoding inverts encoding with any bytes left over, and when every
 decodable prefix is the encoding of what it decodes to.
 */
module Borsh {
  import opened Prelude

  datatype Codec<!T> = Codec(enc: T -> Option<Bytes>, dec: Bytes -> Option<(T, Bytes)>)

  ghost predicate Encodes<T(!new)>(c: Codec<T>) {
    forall x: T, rest: Bytes :: c.enc(x).Some? ==> c.dec(c.enc(x).value + rest) == Some((x, rest))
  }

  ghost predicate Decodes<T(!new)>(c: Codec<T>) {
    forall b: Bytes :: c.dec(b).Some? ==> DecodedFrom(c, b, c.dec(b).value.0, c.dec(b).value.1)
  }

  ghost predicate DecodedFrom<T>(c: Codec<T>, b: Bytes, x: T, rest: Bytes) {
    c.enc(x).Some? && b == c.enc(x).value + rest
  }

  ghost predicate Exact<T(!new)>(c: Codec<T>) { Encodes(c) && Decodes(c) }

  // --- Fixed-width little-endian integers ---

  function LittleEndian(x: nat, n: nat): (b: Bytes)
    ensures |b| == n
  {
    if n == 0 then [] else [x % 256] + LittleEndian(x / 256, n - 1)
  }

  function FromLittleEndian(b: Bytes): nat {
    if b == [] then 0 else b[0] + 256 * FromLittleEndian(b[1..])
  }

  lemma {:induction false} LittleEndianDecodes(x: nat, n: nat)
    requires x < Pow256(n)
    ensures FromLittleEndian(LittleEndian(x, n)) == x
  {
    if n > 0 {
      assert x / 256 < Pow256(n - 1);
      LittleEndianDecodes(x / 256, n - 1);
      assert LittleEndian(x, n)[1..] == LittleEndian(x / 256, n - 1);
    }
  }

  lemma {:induction false} LittleEndianEncodes(b: Bytes)
    ensures FromLittleEndian(b) < Pow256(|b|) && LittleEndian(FromLittleEndian(b), |b|) == b
  {
    if b != [] {
      LittleEndianEncodes(b[1..]);
      LowByte(b[0], FromLittleEndian(b[1..]));
      assert b == [b[0]] + b[1..];
    }
  }

  lemma LowByte(low: Byte, high: nat)
    ensures (low + 256 * high) % 256 == low && (low + 256 * high) / 256 == high
  {
  }

  /** An unsigned integer of `n` bytes. */
  function UintOf(n: nat): Codec<nat> {
    Codec(
      (x: nat) => if x < Pow256(n) then Some(LittleEndian(x, n)) else None,
      (b: Bytes) => if |b| < n then None else Some((FromLittleEndian(b[..n]), b[n..])))
  }

  lemma UintExact(n: nat)
    ensures Exact(UintOf(n))
  {
    var c := UintOf(n);
    forall x: nat, rest: Bytes | c.enc(x).Some? ensures c.dec(c.enc(x).value + rest) == Some((x, rest)) {
      LittleEndianDecodes(x, n);
      var b := LittleEndian(x, n) + rest;
      assert b[..n] == LittleEndian(x, n) && b[n..] == rest;
    }
    forall b: Bytes | c.dec(b).Some? ensures DecodedFrom(c, b, c.dec(b).value.0, c.dec(b).value.1) {
      LittleEndianEncodes(b[..n]);
      assert b == b[..n] + b[n..];
    }
  }

  lemma Pow256Word()
    ensures Pow256(4) == U32_MAX + 1 && Pow256(8) == U64_MAX + 1
  {
  }

  const WORD64: Codec<U64> := Codec(
    (x: U64) => UintOf(8).enc(x),
    (b: Bytes) =>
      match UintOf(8).dec(b)
      case None => None
      case Some((x, rest)) => if x <= U64_MAX then (var y: U64 := x; Some((y, rest))) else None)

  /** A `u64`: eight bytes, and every value has them. */
  lemma Word64Exact()
    ensures Exact(WORD64) && forall x: U64 :: WORD64.enc(x).Some?
  {
    UintExact(8);
    Pow256Word();
    hide LittleEndian, FromLittleEndian, Pow256;
    forall x: U64, rest: Bytes | WORD64.enc(x).Some? ensures WORD64.dec(WORD64.enc(x).value + rest) == Some((x, rest)) {
      assert UintOf(8).dec(UintOf(8).enc(x).value + rest) == Some((x as nat, rest));
    }
    forall b: Bytes | WORD64.dec(b).Some? ensures DecodedFrom(WORD64, b, WORD64.dec(b).value.0, WORD64.dec(b).value.1) {
      assert DecodedFrom(UintOf(8), b, UintOf(8).dec(b).value.0, UintOf(8).dec(b).value.1);
    }
  }

  // --- Byte vectors and strings ---

  /** `Vec<u8>`: a 32-bit length, then the bytes. Encoding fails only past that length. */
  const VECTOR: Codec<Bytes> := Codec(
    (x: Bytes) => if |x| <= U32_MAX then Some(LittleEndian(|x|, 4) + x) else None,
    (b: Bytes) =>
      if |b| < 4 || |b| - 4 < FromLittleEndian(b[..4]) then None
      else var n := FromLittleEndian(b[..4]); Some((b[4..][..n], b[4..][n..])))

  lemma VectorExact()
    ensures Exact(VECTOR)
  {
    hide LittleEndian, FromLittleEndian, Pow256;
    Pow256Word();
    forall x: Bytes, rest: Bytes | VECTOR.enc(x).Some? ensures VECTOR.dec(VECTOR.enc(x).value + rest) == Some((x, rest)) {
      LittleEndianDecodes(|x|, 4);
      var b := LittleEndian(|x|, 4) + x + rest;
      assert b[..4] == LittleEndian(|x|, 4) && b[4..] == x + rest;
      assert b[4..][..|x|] == x && b[4..][|x|..] == rest;
    }
    forall b: Bytes | VECTOR.dec(b).Some?
      ensures DecodedFrom(VECTOR, b, VECTOR.dec(b).value.0, VECTOR.dec(b).value.1)
    {
      LittleEndianEncodes(b[..4]);
      var n := FromLittleEndian(b[..4]);
      assert b == b[..4] + (b[4..][..n] + b[4..][n..]);
    }
  }

  predicate Continuation(b: Byte) { 0x80 <= b <= 0xBF }

  /** Well-formed UTF-8: section 4 of RFC 3629. */
  predicate ValidUtf8(b: Bytes) {
    if b == [] then true
    else if b[0] <= 0x7F then ValidUtf8(b[1..])
    else if 0xC2 <= b[0] <= 0xDF then
      |b| >= 2 && Continuation(b[1]) && ValidUtf8(b[2..])
    else if 0xE0 <= b[0] <= 0xEF then
      && |b| >= 3 && Continuation(b[1]) && Continuation(b[2])
      && (b[0] == 0xE0 ==> 0xA0 <= b[1]) && (b[0] == 0xED ==> b[1] <= 0x9F)
      && ValidUtf8(b[3..])
    else if 0xF0 <= b[0] <= 0xF4 then
      && |b| >= 4 && Continuation(b[1]) && Continuation(b[2]) && Continuation(b[3])
      && (b[0] == 0xF0 ==> 0x90 <= b[1]) && (b[0] == 0xF4 ==> b[1] <= 0x8F)
      && ValidUtf8(b[4..])
    else false
  }

  /** A `String`, as its bytes. */
  type Text = b: Bytes | ValidUtf8(b)

  const TEXT: Codec<Text> := Codec(
    (x: Text) => VECTOR.enc(x),
    (b: Bytes) =>
      match VECTOR.dec(b)
      case None => None
      case Some((x, rest)) => if ValidUtf8(x) then Some((x, rest)) else None)

  lemma TextExact()
    ensures Exact(TEXT)
  {
    VectorExact();
    forall x: Text, rest: Bytes | TEXT.enc(x).Some? ensures TEXT.dec(TEXT.enc(x).value + rest) == Some((x, rest)) {
      assert VECTOR.dec(VECTOR.enc(x).value + rest) == Some((x, rest));
    }
    forall b: Bytes | TEXT.dec(b).Some? ensures DecodedFrom(TEXT, b, TEXT.dec(b).value.0, TEXT.dec(b).value.1) {
      assert DecodedFrom(VECTOR, b, VECTOR.dec(b).value.0, VECTOR.dec(b).value.1);
    }
  }

  // --- Flags, options, products ---

  const FLAG: Codec<bool> := Codec(
    (x: bool) => Some([if x then 1 else 0]),
    (b: Bytes) => if b == [] || b[0] > 1 then None else Some((b[0] == 1, b[1..])))

  lemma FlagExact()
    ensures Exact(FLAG)
  {
  }

  function PairOf<A, B>(a: Codec<A>, b: Codec<B>): Codec<(A, B)> {
    Codec(
      (x: (A, B)) =>
        if a.enc(x.0).Some? && b.enc(x.1).Some? then Some(a.enc(x.0).value + b.enc(x.1).value) else None,
      (s: Bytes) =>
        match a.dec(s)
        case None => None
        case Some((x, rest)) =>
          match b.dec(rest)
          case None => None
          case Some((y, left)) => Some(((x, y), left)))
  }

  lemma PairExact<A(!new), B(!new)>(a: Codec<A>, b: Codec<B>)
    requires Exact(a) && Exact(b)
    ensures Exact(PairOf(a, b))
  {
    var c := PairOf(a, b);
    forall x: (A, B), rest: Bytes | c.enc(x).Some? ensures c.dec(c.enc(x).value + rest) == Some((x, rest)) {
      var p, q := a.enc(x.0).value, b.enc(x.1).value;
      assert p + q + rest == p + (q + rest);
      assert a.dec(p + (q + rest)) == Some((x.0, q + rest));
      assert b.dec(q + rest) == Some((x.1, rest));
    }
    forall s: Bytes | c.dec(s).Some? ensures DecodedFrom(c, s, c.dec(s).value.0, c.dec(s).value.1) {
      var (x, rest) := a.dec(s).value;
      assert DecodedFrom(a, s, x, rest);
      var (y, left) := b.dec(rest).value;
      assert DecodedFrom(b, rest, y, left);
      assert a.enc(x).value + (b.enc(y).value + left) == a.enc(x).value + b.enc(y).value + left;
    }
  }

  function OptionOf<A>(a: Codec<A>): Codec<Option<A>> {
    Codec(
      (x: Option<A>) =>
        if x.None? then Some([0])
        else if a.enc(x.value).Some? then Some([1] + a.enc(x.value).value) else None,
      (s: Bytes) =>
        if s == [] || s[0] > 1 then None
        else if s[0] == 0 then Some((None, s[1..]))
        else match a.dec(s[1..])
             case None => None
             case Some((x, rest)) => Some((Some(x), rest)))
  }

  lemma OptionExact<A(!new)>(a: Codec<A>)
    requires Exact(a)
    ensures Exact(OptionOf(a))
  {
    var c := OptionOf(a);
    forall x: Option<A>, rest: Bytes | c.enc(x).Some? ensures c.dec(c.enc(x).value + rest) == Some((x, rest)) {
      var s := c.enc(x).value + rest;
      if x.Some? {
        assert s[1..] == a.enc(x.value).value + rest;
        assert a.dec(a.enc(x.value).value + rest) == Some((x.value, rest));
      } else {
        assert s[1..] == rest;
      }
    }
    forall s: Bytes | c.dec(s).Some? ensures DecodedFrom(c, s, c.dec(s).value.0, c.dec(s).value.1) {
      assert s == [s[0]] + s[1..];
      if s[0] == 1 {
        var (x, rest) := a.dec(s[1..]).value;
        assert DecodedFrom(a, s[1..], x, rest);
        assert [1] + (a.enc(x).value + rest) == [1] + a.enc(x).value + rest;
      }
    }
  }

  /** The same layout read as another type: a struct over its fields, or one case of a sum. */
  function Via<A, B>(a: Codec<A>, wrap: A -> B, unwrap: B -> Option<A>): Codec<B> {
    Codec(
      (y: B) => if unwrap(y).Some? then a.enc(unwrap(y).value) else None,
      (s: Bytes) =>
        match a.dec(s)
        case None => None
        case Some((x, rest)) => Some((wrap(x), rest)))
  }

  ghost predicate Inverse<A(!new), B(!new)>(wrap: A -> B, unwrap: B -> Option<A>) {
    && (forall x: A :: unwrap(wrap(x)) == Some(x))
    && (forall y: B :: unwrap(y).Some? ==> wrap(unwrap(y).value) == y)
  }

  lemma ViaExact<A(!new), B(!new)>(a: Codec<A>, wrap: A -> B, unwrap: B -> Option<A>)
    requires Exact(a) && Inverse(wrap, unwrap)
    ensures Exact(Via(a, wrap, unwrap))
  {
    var c := Via(a, wrap, unwrap);
    forall y: B, rest: Bytes | c.enc(y).Some? ensures c.dec(c.enc(y).value + rest) == Some((y, rest)) {
      var x := unwrap(y).value;
      assert a.dec(a.enc(x).value + rest) == Some((x, rest));
    }
    forall s: Bytes | c.dec(s).Some? ensures DecodedFrom(c, s, c.dec(s).value.0, c.dec(s).value.1) {
      var (x, rest) := a.dec(s).value;
      assert DecodedFrom(a, s, x, rest);
      assert unwrap(wrap(x)) == Some(x);
    }
  }

  // --- A whole buffer ---

  /** `from_slice`: nothing may be left over. */
  function FromSlice<T>(c: Codec<T>, b: Bytes): Option<T> {
    match c.dec(b)
    case None => None
    case Some((x, rest)) => if rest == [] then Some(x) else None
  }

  lemma FromSliceExact<T(!new)>(c: Codec<T>, b: Bytes, x: T)
    requires Exact(c)
    ensures FromSlice(c, b) == Some(x) <==> c.enc(x) == Some(b)
  {
    if c.enc(x) == Some(b) {
      assert c.dec(c.enc(x).value + []) == Some((x, []));
      assert b + [] == b;
    }
    if FromSlice(c, b) == Some(x) {
      assert DecodedFrom(c, b, x, []);
      assert c.enc(x).value + [] == c.enc(x).value;
    }
  }

  /** No encoding is a proper prefix of another. */
  lemma PrefixFree<T(!new)>(c: Codec<T>, x: T, y: T, extra: Bytes)
    requires Exact(c) && c.enc(x).Some? && c.enc(y) == Some(c.enc(x).value + extra)
    ensures extra == [] && x == y
  {
    assert c.dec(c.enc(x).value + extra) == Some((x, extra));
    assert c.dec(c.enc(y).value + []) == Some((y, []));
    assert c.enc(y).value + [] == c.enc(x).value + extra;
  }
}
