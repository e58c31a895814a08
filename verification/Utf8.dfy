/** The strings a decoder accepts are exactly the encodings of Unicode scalar values: RFC 3629, sections 3 and 4. */
module Utf8 {
  import opened Prelude
  import opened Borsh

  type Scalar = c: nat | c < 0xD800 || 0xE000 <= c < 0x11_0000

  /** One scalar value, in the fewest bytes that hold it. */
  function Encoded(c: Scalar): Bytes {
    if c < 0x80 then [c]
    else if c < 0x800 then [0xC0 + c / 64, 0x80 + c % 64]
    else if c < 0x1_0000 then [0xE0 + c / 64 / 64, 0x80 + c / 64 % 64, 0x80 + c % 64]
    else [0xF0 + c / 64 / 64 / 64, 0x80 + c / 64 / 64 % 64, 0x80 + c / 64 % 64, 0x80 + c % 64]
  }

  function EncodedAll(cs: seq<Scalar>): Bytes {
    if cs == [] then [] else Encoded(cs[0]) + EncodedAll(cs[1..])
  }

  lemma OneIsValid(c: Scalar, rest: Bytes)
    ensures ValidUtf8(Encoded(c) + rest) <==> ValidUtf8(rest)
  {
    var b := Encoded(c) + rest;
    assert b[|Encoded(c)|..] == rest;
  }

  lemma {:induction false} EncodingsAreValid(cs: seq<Scalar>)
    ensures ValidUtf8(EncodedAll(cs))
  {
    if cs != [] {
      EncodingsAreValid(cs[1..]);
      OneIsValid(cs[0], EncodedAll(cs[1..]));
    }
  }

  /** Six bits more. */
  function Two(high: nat, low: nat): (c: nat)
    requires low < 64
    ensures c / 64 == high && c % 64 == low
  {
    64 * high + low
  }

  /** The scalar value at the front of a valid string. */
  function Front(b: Bytes): (c: nat)
    requires b != [] && ValidUtf8(b)
  {
    if b[0] < 0x80 then b[0]
    else if b[0] < 0xE0 then Two(b[0] - 0xC0, b[1] - 0x80)
    else if b[0] < 0xF0 then Two(Two(b[0] - 0xE0, b[1] - 0x80), b[2] - 0x80)
    else Two(Two(Two(b[0] - 0xF0, b[1] - 0x80), b[2] - 0x80), b[3] - 0x80)
  }

  predicate IsScalar(c: nat) { c < 0xD800 || 0xE000 <= c < 0x11_0000 }

  lemma FrontIsScalar(b: Bytes)
    requires b != [] && ValidUtf8(b)
    ensures IsScalar(Front(b))
  {
  }

  /** As many bytes as the first one says, and what follows is valid again. */
  function FrontSize(b: Bytes): (n: nat)
    requires b != [] && ValidUtf8(b)
    ensures 1 <= n <= |b| && ValidUtf8(b[n..])
  {
    if b[0] < 0x80 then 1 else if b[0] < 0xE0 then 2 else if b[0] < 0xF0 then 3 else 4
  }

  lemma FrontEncodes(b: Bytes)
    requires b != [] && ValidUtf8(b)
    ensures IsScalar(Front(b)) && Encoded(Front(b)) == b[..FrontSize(b)]
  {
    FrontIsScalar(b);
  }

  lemma {:induction false} ValidIsEncoding(b: Bytes) returns (cs: seq<Scalar>)
    requires ValidUtf8(b)
    ensures b == EncodedAll(cs)
  {
    if b == [] { return []; }
    FrontEncodes(b);
    hide Encoded, Front, FrontSize, ValidUtf8;
    var c: Scalar, n := Front(b), FrontSize(b);
    var rest := ValidIsEncoding(b[n..]);
    cs := [c] + rest;
    assert cs[1..] == rest && b == b[..n] + b[n..];
  }

  /** A byte string is a valid string if and only if it encodes some sequence of scalar values. */
  lemma ValidIffEncoding(b: Bytes)
    ensures ValidUtf8(b) <==> exists cs: seq<Scalar> :: b == EncodedAll(cs)
  {
    if ValidUtf8(b) {
      var cs := ValidIsEncoding(b);
    }
    if cs: seq<Scalar> :| b == EncodedAll(cs) {
      EncodingsAreValid(cs);
    }
  }
}
