/**
 The published layouts, byte by byte: version tags, discriminants, presence bytes and
 lengths as numerals, fields in order, and which bytes are refused with what.
 */
module WireLayout {
  import opened Prelude
  import opened Borsh
  import opened RegistryModel
  import StatusBody
  import IntentBody
  import Reference

  /** Four, and eight, little-endian bytes. */
  function Le32(n: nat): Bytes { [n % 256, n / 256 % 256, n / 256 / 256 % 256, n / 256 / 256 / 256 % 256] }

  function Le64(n: nat): Bytes { Le32(n) + Le32(n / 256 / 256 / 256 / 256) }

  /** A length and the bytes. */
  function Blob(b: Bytes): Bytes { Le32(|b|) + b }

  predicate Short(b: Bytes) { |b| < 0x1_0000_0000 }

  lemma FourBytes(n: nat)
    ensures LittleEndian(n, 4) == Le32(n)
  {
    var a, b, c := n / 256, n / 256 / 256, n / 256 / 256 / 256;
    assert LittleEndian(c, 1) == [c % 256] + LittleEndian(c / 256, 0);
    assert LittleEndian(b, 2) == [b % 256] + LittleEndian(c, 1);
    assert LittleEndian(a, 3) == [a % 256] + LittleEndian(b, 2);
  }

  lemma EightBytes(n: nat)
    ensures LittleEndian(n, 8) == Le64(n)
  {
    var a, b, c, m := n / 256, n / 256 / 256, n / 256 / 256 / 256, n / 256 / 256 / 256 / 256;
    FourBytes(m);
    assert LittleEndian(c, 5) == [c % 256] + LittleEndian(m, 4);
    assert LittleEndian(b, 6) == [b % 256] + LittleEndian(c, 5);
    assert LittleEndian(a, 7) == [a % 256] + LittleEndian(b, 6);
    assert LittleEndian(n, 8) == [n % 256] + LittleEndian(a, 7);
  }

  lemma BlobLayout(b: Bytes)
    ensures VECTOR.enc(b) == if Short(b) then Some(Blob(b)) else None
  {
    hide LittleEndian;
    FourBytes(|b|);
  }

  lemma WordLayout(x: U64)
    ensures WORD64.enc(x) == Some(Le64(x))
  {
    hide LittleEndian, Pow256, Le64;
    Pow256Word();
    EightBytes(x);
    assert UintOf(8).enc(x) == Some(LittleEndian(x, 8));
  }

  lemma PairLayout<A, B>(a: Codec<A>, b: Codec<B>, x: A, y: B)
    requires a.enc(x).Some? && b.enc(y).Some?
    ensures PairOf(a, b).enc((x, y)) == Some(a.enc(x).value + b.enc(y).value)
  {
  }

  // --- The status body and the envelope ---

  const STATES := [Pending, Open, Fulfilled, Cancelled, Expired]

  function Optional(b: Option<Bytes>): Bytes { if b.None? then [0] else [1] + b.value }

  /** A body's bytes: tag 1, the state's place in the published list, the proof, the reason. */
  predicate BodyLaidOut(b: StatusBody.Body, bytes: Bytes) {
    && |bytes| >= 2 && bytes[0] == 1 && bytes[1] < 5 && b.status == STATES[bytes[1]]
    && bytes == [1, bytes[1]]
       + Optional(if b.proof.None? then None else Some(Blob(b.proof.value)))
       + Optional(if b.reason.None? then None else Some(Blob(b.reason.value.code) + Blob(b.reason.value.detail)))
  }

  lemma BodyBytes(b: StatusBody.Body)
    ensures StatusBody.EncodeBody(b).Some? ==> BodyLaidOut(b, StatusBody.EncodeBody(b).value)
  {
    hide StatusBody.BODY, LittleEndian, Blob;
    StatusBody.BodyLayout(b);
    if StatusBody.EncodeBody(b).Some? {
      ProofLayout(b.proof);
      ReasonBytes(b.reason);
      hide OptionOf, VECTOR, StatusBody.REASON, Optional;
      var d := StatusBody.Discriminant(b.status);
      assert b.status == STATES[d];
      Regroup4(d, OptionOf(VECTOR).enc(b.proof).value, OptionOf(StatusBody.REASON).enc(b.reason).value);
    }
  }

  lemma Regroup4(d: Byte, p: Bytes, r: Bytes)
    ensures [1] + ([d] + (p + r)) == [1, d] + p + r
  {
  }

  lemma ProofLayout(proof: Option<Bytes>)
    requires OptionOf(VECTOR).enc(proof).Some?
    ensures OptionOf(VECTOR).enc(proof).value == Optional(if proof.None? then None else Some(Blob(proof.value)))
  {
    hide VECTOR, Blob;
    if proof.Some? { BlobLayout(proof.value); }
  }

  lemma ReasonBytes(reason: Option<StatusBody.FailReason>)
    requires OptionOf(StatusBody.REASON).enc(reason).Some?
    ensures OptionOf(StatusBody.REASON).enc(reason).value
         == Optional(if reason.None? then None else Some(Blob(reason.value.code) + Blob(reason.value.detail)))
  {
    hide VECTOR, StatusBody.REASON, Blob;
    if reason.Some? {
      StatusBody.ReasonLayout(reason.value);
      BlobLayout(reason.value.code);
      BlobLayout(reason.value.detail);
    }
  }

  /** Which bytes decode, and what the others are refused with. */
  lemma BodyDecoding(bytes: Bytes)
    ensures StatusBody.DecodeBody(bytes).Ok? ==>
      |bytes| >= 2 && bytes[0] == 1 && bytes[1] < 5 && StatusBody.DecodeBody(bytes).value.status == STATES[bytes[1]]
    ensures StatusBody.DecodeBody(bytes) == Err(StatusBody.Empty) <==> bytes == []
    ensures forall v: Byte :: StatusBody.DecodeBody(bytes) == Err(StatusBody.UnknownVersion(v)) <==> bytes != [] && bytes[0] != 1 && v == bytes[0]
    ensures forall v: Byte :: StatusBody.DecodeBody(bytes) == Err(StatusBody.Malformed(v)) <==>
      bytes != [] && bytes[0] == 1 && v == 1 && forall b :: StatusBody.EncodeBody(b) != Some(bytes)
  {
    hide StatusBody.BODY;
    forall b ensures StatusBody.DecodeBody(bytes) == Ok(b) <==> StatusBody.EncodeBody(b) == Some(bytes) {
      StatusBody.StatusBodyRoundTrip(b, bytes);
    }
    if StatusBody.DecodeBody(bytes).Ok? {
      BodyBytes(StatusBody.DecodeBody(bytes).value);
    }
  }

  /** An envelope's bytes: tag 1, then venue, receipt and status, each with its length. */
  lemma EnvelopeBytes(u: StatusBody.Update, bytes: Bytes)
    requires StatusBody.EncodeUpdate(u) == Some(bytes)
    ensures bytes == [1] + Blob(u.venue) + Blob(u.receipt) + Blob(u.status)
  {
    hide StatusBody.UPDATE, Blob;
    StatusBody.UpdateLayout(u);
    BlobLayout(u.venue);
    BlobLayout(u.receipt);
    BlobLayout(u.status);
    hide VECTOR;
    var v, r, s := Blob(u.venue), Blob(u.receipt), Blob(u.status);
    assert [1] + (v + (r + s)) == [1] + v + r + s;
  }

  lemma EnvelopeDecoding(bytes: Bytes)
    ensures StatusBody.DecodeUpdate(bytes).Ok? ==> bytes != [] && bytes[0] == 1
    ensures StatusBody.DecodeUpdate(bytes) == Err(StatusBody.Empty) <==> bytes == []
    ensures forall v: Byte :: StatusBody.DecodeUpdate(bytes) == Err(StatusBody.UnknownVersion(v)) <==> bytes != [] && bytes[0] != 1 && v == bytes[0]
    ensures forall v: Byte :: StatusBody.DecodeUpdate(bytes) == Err(StatusBody.Malformed(v)) <==>
      bytes != [] && bytes[0] == 1 && v == 1 && forall u :: StatusBody.EncodeUpdate(u) != Some(bytes)
  {
    hide StatusBody.UPDATE;
    forall u ensures StatusBody.DecodeUpdate(bytes) == Ok(u) <==> StatusBody.EncodeUpdate(u) == Some(bytes) {
      StatusBody.EnvelopeRoundTrip(u, bytes);
    }
  }

  // --- The reference schema ---

  /** Version 1 is tag 0, the amount and the memo. */
  lemma V1Bytes(amount: U64, memo: Text)
    requires Short(memo)
    ensures IntentBody.ToBytes(Reference.SCHEMA, IntentBody.Body(0, Reference.V1(amount, memo)))
         == Ok([0] + Le64(amount) + Blob(memo))
  {
    WordLayout(amount);
    BlobLayout(memo);
    hide WORD64, VECTOR, Le64, Blob;
    assert Reference.V1_CODEC.enc(Reference.V1(amount, memo)) == Some(Le64(amount) + Blob(memo));
    assert [0] + (Le64(amount) + Blob(memo)) == [0] + Le64(amount) + Blob(memo);
  }

  /** Version 2 is tag 1, then its five fields in order. */
  lemma V2Bytes(amount: U64, memo: Text, until: Option<U64>, recipient: Bytes, urgent: bool)
    requires Short(memo) && Short(recipient)
    ensures IntentBody.ToBytes(Reference.SCHEMA, IntentBody.Body(1, Reference.V2(amount, memo, until, recipient, urgent)))
         == Ok([1] + Le64(amount) + Blob(memo) + Optional(if until.None? then None else Some(Le64(until.value)))
               + Blob(recipient) + [if urgent then 1 else 0])
  {
    var a, m, r, f := Le64(amount), Blob(memo), Blob(recipient), [if urgent then 1 else 0];
    var t := Optional(if until.None? then None else Some(Le64(until.value)));
    V2Fields(amount, memo, until, recipient, urgent);
    V2Codec(amount, memo, until, recipient, urgent);
    hide Reference.FIELDS2, Reference.V2_CODEC, Reference.V1_CODEC, Le64, Blob, Optional;
    Regroup6([1], a, m, t, r, f);
  }

  lemma Regroup6(v: Bytes, a: Bytes, b: Bytes, c: Bytes, d: Bytes, e: Bytes)
    ensures v + (a + (b + (c + (d + e)))) == v + a + b + c + d + e
  {
  }

  lemma V2Codec(amount: U64, memo: Text, until: Option<U64>, recipient: Bytes, urgent: bool)
    ensures Reference.V2_CODEC.enc(Reference.V2(amount, memo, until, recipient, urgent))
         == Reference.FIELDS2.enc((amount, (memo, (until, (recipient, urgent)))))
  {
    hide Reference.FIELDS2;
  }

  lemma V2Fields(amount: U64, memo: Text, until: Option<U64>, recipient: Bytes, urgent: bool)
    requires Short(memo) && Short(recipient)
    ensures Reference.FIELDS2.enc((amount, (memo, (until, (recipient, urgent)))))
         == Some(Le64(amount) + (Blob(memo) + (Optional(if until.None? then None else Some(Le64(until.value)))
                 + (Blob(recipient) + [if urgent then 1 else 0]))))
  {
    WordLayout(amount);
    BlobLayout(memo);
    BlobLayout(recipient);
    OptionalWord(until);
    assert TEXT.enc(memo) == VECTOR.enc(memo) && FLAG.enc(urgent) == Some([if urgent then 1 else 0]);
    hide PairOf, OptionOf, WORD64, VECTOR, FLAG, TEXT, Le64, Blob, Optional;
    PairLayout(VECTOR, FLAG, recipient, urgent);
    PairLayout(OptionOf(WORD64), PairOf(VECTOR, FLAG), until, (recipient, urgent));
    PairLayout(TEXT, PairOf(OptionOf(WORD64), PairOf(VECTOR, FLAG)), memo, (until, (recipient, urgent)));
    PairLayout(WORD64, PairOf(TEXT, PairOf(OptionOf(WORD64), PairOf(VECTOR, FLAG))), amount, (memo, (until, (recipient, urgent))));
  }

  lemma OptionalWord(x: Option<U64>)
    ensures OptionOf(WORD64).enc(x) == Some(Optional(if x.None? then None else Some(Le64(x.value))))
  {
    hide WORD64, Le64;
    if x.Some? { WordLayout(x.value); }
  }
}
