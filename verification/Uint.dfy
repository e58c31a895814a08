/**
 The canonical `uint` of ADR 0001: minimal big-endian, zero is the empty list, at
 most 32 bytes. Two independent encoders, one decoder.
 */
module Uint {
  import opened Prelude

  const WORD: nat := 32

  /** `to_be_bytes` of an `n`-byte integer. */
  function BigEndian(x: nat, n: nat): (b: Bytes)
    ensures |b| == n
  {
    if n == 0 then [] else BigEndian(x / 256, n - 1) + [x % 256]
  }

  /** `from_be_slice`. */
  function FromBigEndian(b: Bytes): nat {
    if b == [] then 0 else 256 * FromBigEndian(b[..|b| - 1]) + b[|b| - 1]
  }

  function TrimZeros(b: Bytes): Bytes {
    if b != [] && b[0] == 0 then TrimZeros(b[1..]) else b
  }

  predicate Canonical(b: Bytes) { |b| <= 32 && (b != [] ==> b[0] != 0) }

  /** `encode_uint`: the whole word, leading zeros trimmed. */
  function EncodeUint(value: nat): Bytes { TrimZeros(BigEndian(value, WORD)) }

  datatype UintError = LeadingZero | Overflow(len: nat)

  /** `decode_uint`: width first, then padding. */
  function DecodeUint(bytes: Bytes): Result<nat, UintError> {
    if |bytes| > WORD then Err(Overflow(|bytes|))
    else if bytes != [] && bytes[0] == 0 then Err(LeadingZero)
    else Ok(FromBigEndian(bytes))
  }

  /** `position(|byte| *byte != 0)`. */
  function FirstNonZero(b: Bytes): Option<nat> {
    if b == [] then None
    else if b[0] != 0 then Some(0)
    else match FirstNonZero(b[1..])
         case None => None
         case Some(i) => Some(i + 1)
  }

  /** The native venue's own encoder over `u64`. */
  function MinimalBe(value: U64): Bytes {
    var bytes := BigEndian(value, 8);
    match FirstNonZero(bytes)
    case None => []
    case Some(i) => if i <= |bytes| then bytes[i..] else []
  }

  // --- Both directions ---

  lemma {:induction false} BigEndianDecodes(x: nat, n: nat)
    requires x < Pow256(n)
    ensures FromBigEndian(BigEndian(x, n)) == x
  {
    if n > 0 {
      BigEndianDecodes(x / 256, n - 1);
      assert BigEndian(x, n)[..n - 1] == BigEndian(x / 256, n - 1);
    }
  }

  lemma {:induction false} FromBigEndianBound(b: Bytes)
    ensures FromBigEndian(b) < Pow256(|b|)
  {
    if b != [] {
      FromBigEndianBound(b[..|b| - 1]);
    }
  }

  /** A leading zero byte carries no value. */
  lemma {:induction false} LeadingZeroIsNothing(b: Bytes)
    requires b != [] && b[0] == 0
    ensures FromBigEndian(b) == FromBigEndian(b[1..])
  {
    var n := |b| - 1;
    if n > 0 {
      LeadingZeroIsNothing(b[..n]);
      assert b[..n][1..] == b[1..][..n - 1];
    }
  }

  lemma {:induction false} TrimKeepsValue(b: Bytes)
    ensures FromBigEndian(TrimZeros(b)) == FromBigEndian(b)
    ensures |TrimZeros(b)| <= |b| && (TrimZeros(b) != [] ==> TrimZeros(b)[0] != 0)
  {
    if b != [] && b[0] == 0 {
      TrimKeepsValue(b[1..]);
      LeadingZeroIsNothing(b);
    }
  }

  /** A first byte that is not zero puts the value at or above the next lower power. */
  lemma {:induction false} LeadingByteFloor(b: Bytes)
    requires b != [] && b[0] != 0
    ensures FromBigEndian(b) >= Pow256(|b| - 1)
  {
    var n := |b| - 1;
    if n > 0 {
      LeadingByteFloor(b[..n]);
    }
  }

  lemma {:induction false} Pow256Grows(m: nat, n: nat)
    requires m <= n
    ensures Pow256(m) <= Pow256(n)
    decreases n
  {
    if m < n {
      Pow256Grows(m, n - 1);
    }
  }

  /** Length-then-lexicographic order on byte strings. */
  predicate Shortlex(a: Bytes, b: Bytes) {
    |a| < |b| || (|a| == |b| && Lex(a, b))
  }

  /** Lexicographic order, decided at the last byte when the fronts agree. */
  predicate Lex(a: Bytes, b: Bytes)
    requires |a| == |b|
  {
    var n := |a| - 1;
    a != [] && (Lex(a[..n], b[..n]) || (a[..n] == b[..n] && a[n] < b[n]))
  }

  lemma {:induction false} LexIsNumeric(a: Bytes, b: Bytes)
    requires |a| == |b|
    ensures Lex(a, b) <==> FromBigEndian(a) < FromBigEndian(b)
    ensures a == b <==> FromBigEndian(a) == FromBigEndian(b)
  {
    if a != [] {
      var n := |a| - 1;
      LexIsNumeric(a[..n], b[..n]);
      assert a == a[..n] + [a[n]] && b == b[..n] + [b[n]];
    }
  }

  /** Integer order is length-then-lexicographic order of the canonical encodings. */
  lemma {:induction false} OrderIsShortlex(a: Bytes, b: Bytes)
    requires Canonical(a) && Canonical(b)
    ensures Shortlex(a, b) <==> FromBigEndian(a) < FromBigEndian(b)
    ensures a == b <==> FromBigEndian(a) == FromBigEndian(b)
  {
    if |a| == |b| {
      LexIsNumeric(a, b);
    } else {
      var (short, long) := if |a| < |b| then (a, b) else (b, a);
      FromBigEndianBound(short);
      LeadingByteFloor(long);
      Pow256Grows(|short|, |long| - 1);
    }
  }

  /** `encode_uint` lands in the canonical strings and `decode_uint` returns the value. */
  lemma EncodeThenDecode(value: nat)
    requires value < Pow256(32)
    ensures Canonical(EncodeUint(value)) && DecodeUint(EncodeUint(value)) == Ok(value)
  {
    hide BigEndian, FromBigEndian, TrimZeros, Pow256;
    BigEndianDecodes(value, WORD);
    TrimKeepsValue(BigEndian(value, WORD));
  }

  /** `decode_uint` accepts exactly the canonical strings, and re-encoding returns the same bytes. */
  lemma DecodeThenEncode(bytes: Bytes)
    ensures DecodeUint(bytes).Ok? <==> Canonical(bytes)
    ensures |bytes| > 32 ==> DecodeUint(bytes) == Err(Overflow(|bytes|))
    ensures |bytes| <= 32 && bytes != [] && bytes[0] == 0 ==> DecodeUint(bytes) == Err(LeadingZero)
    ensures DecodeUint(bytes).Ok? ==>
      DecodeUint(bytes).value < Pow256(32) && EncodeUint(DecodeUint(bytes).value) == bytes
  {
    hide FromBigEndian, EncodeUint, Pow256;
    if Canonical(bytes) {
      var value := FromBigEndian(bytes);
      FromBigEndianBound(bytes);
      Pow256Grows(|bytes|, WORD);
      EncodeThenDecode(value);
      OrderIsShortlex(EncodeUint(value), bytes);
    }
  }

  lemma {:induction false} TrimIsFirstNonZero(b: Bytes)
    ensures match FirstNonZero(b)
            case None => TrimZeros(b) == []
            case Some(i) => i < |b| && TrimZeros(b) == b[i..]
  {
    if b != [] && b[0] == 0 {
      TrimIsFirstNonZero(b[1..]);
    }
  }

  lemma TrimmedEncodes(b: Bytes, value: nat)
    requires |b| <= WORD && FromBigEndian(b) == value < Pow256(WORD)
    ensures TrimZeros(b) == EncodeUint(value)
  {
    hide BigEndian, FromBigEndian, Pow256, TrimZeros, EncodeUint;
    TrimKeepsValue(b);
    EncodeThenDecode(value);
    OrderIsShortlex(TrimZeros(b), EncodeUint(value));
  }

  lemma EightBytes()
    ensures Pow256(8) == U64_MAX + 1
  {
  }

  /** The two encoders agree on every 64-bit value. */
  lemma EncodersAgree(value: U64)
    ensures MinimalBe(value) == EncodeUint(value)
  {
    hide BigEndian, FromBigEndian, Pow256, TrimZeros, FirstNonZero, EncodeUint;
    EightBytes();
    var short := BigEndian(value, 8);
    TrimIsFirstNonZero(short);
    TrimKeepsValue(short);
    BigEndianDecodes(value, 8);
    Pow256Grows(8, WORD);
    EncodeThenDecode(value);
    TrimmedEncodes(short, value);
  }
}
