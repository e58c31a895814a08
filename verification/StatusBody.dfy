/**
 The status body and the envelope it rides in: a version tag, then the Borsh
 payload. Both are exact inverses, refuse any truncation or extension, and an
 envelope that lost its tag is refused too.
 */
module StatusBody {
  import opened Prelude
  import opened Borsh
  import opened RegistryModel

  const VERSION_V1: Byte := 1
  const ENVELOPE_VERSION_V1: Byte := 1

  // --- The tag line both share ---

  datatype DecodeError = Empty | UnknownVersion(version: Byte) | Malformed(version: Byte)

  function EncodeTagged<T>(tag: Byte, c: Codec<T>, x: T): Option<Bytes> {
    match c.enc(x)
    case None => None
    case Some(payload) => Some([tag] + payload)
  }

  function DecodeTagged<T>(tag: Byte, c: Codec<T>, bytes: Bytes): Result<T, DecodeError> {
    if bytes == [] then Err(Empty)
    else if bytes[0] == tag then
      match FromSlice(c, bytes[1..])
      case None => Err(Malformed(tag))
      case Some(x) => Ok(x)
    else Err(UnknownVersion(bytes[0]))
  }

  /** Encoding and decoding are mutual inverses. */
  lemma TaggedExact<T(!new)>(tag: Byte, c: Codec<T>, bytes: Bytes, x: T)
    requires Exact(c)
    ensures DecodeTagged(tag, c, bytes) == Ok(x) <==> EncodeTagged(tag, c, x) == Some(bytes)
  {
    if bytes != [] {
      FromSliceExact(c, bytes[1..], x);
      assert bytes == [bytes[0]] + bytes[1..];
    }
    if c.enc(x).Some? {
      assert ([tag] + c.enc(x).value)[1..] == c.enc(x).value;
    }
  }

  /** No proper prefix and no proper extension of an encoding decodes. */
  lemma TaggedIsSelfDelimiting<T(!new)>(tag: Byte, c: Codec<T>, x: T, bytes: Bytes, other: Bytes)
    requires Exact(c) && EncodeTagged(tag, c, x) == Some(bytes)
    requires (bytes <= other || other <= bytes) && DecodeTagged(tag, c, other).Ok?
    ensures other == bytes
  {
    var y := DecodeTagged(tag, c, other).value;
    TaggedExact(tag, c, other, y);
    assert bytes[1..] == c.enc(x).value && other[1..] == c.enc(y).value;
    if bytes <= other {
      assert c.enc(y).value == c.enc(x).value + other[|bytes|..];
      PrefixFree(c, x, y, other[|bytes|..]);
    } else {
      assert c.enc(x).value == c.enc(y).value + bytes[|other|..];
      PrefixFree(c, y, x, bytes[|other|..]);
    }
  }

  // --- The status body ---

  datatype FailReason = FailReason(code: Text, detail: Text)

  datatype Body = Body(status: Status, proof: Option<Bytes>, reason: Option<FailReason>)

  function Discriminant(s: Status): Byte {
    match s
    case Pending => 0
    case Open => 1
    case Fulfilled => 2
    case Cancelled => 3
    case Expired => 4
  }

  function StatusAt(d: Byte): Option<Status> {
    if d == 0 then Some(Pending) else if d == 1 then Some(Open) else if d == 2 then Some(Fulfilled)
    else if d == 3 then Some(Cancelled) else if d == 4 then Some(Expired) else None
  }

  const STATUS: Codec<Status> := Codec(
    (s: Status) => Some([Discriminant(s)]),
    (b: Bytes) =>
      if b == [] then None
      else match StatusAt(b[0])
           case None => None
           case Some(s) => Some((s, b[1..])))

  const REASON: Codec<FailReason> := Via(PairOf(TEXT, TEXT),
    (p: (Text, Text)) => FailReason(p.0, p.1), (r: FailReason) => Some((r.code, r.detail)))

  const BODY: Codec<Body> := Via(PairOf(STATUS, PairOf(OptionOf(VECTOR), OptionOf(REASON))),
    (p: (Status, (Option<Bytes>, Option<FailReason>))) => Body(p.0, p.1.0, p.1.1),
    (b: Body) => Some((b.status, (b.proof, b.reason))))

  lemma StatusExact()
    ensures Exact(STATUS)
  {
    forall s: Status, rest: Bytes | STATUS.enc(s).Some? ensures STATUS.dec(STATUS.enc(s).value + rest) == Some((s, rest)) {
      assert (STATUS.enc(s).value + rest)[1..] == rest;
    }
    forall b: Bytes | STATUS.dec(b).Some?
      ensures DecodedFrom(STATUS, b, STATUS.dec(b).value.0, STATUS.dec(b).value.1)
    {
      assert b == [b[0]] + b[1..];
    }
  }

  lemma ReasonExact()
    ensures Exact(REASON)
  {
    hide Exact, PairOf, TEXT;
    TextExact();
    PairExact(TEXT, TEXT);
    ViaExact(PairOf(TEXT, TEXT), (p: (Text, Text)) => FailReason(p.0, p.1), (r: FailReason) => Some((r.code, r.detail)));
  }

  lemma BodyExact()
    ensures Exact(BODY)
  {
    hide Exact, PairOf, OptionOf, VECTOR, REASON, STATUS;
    StatusExact();
    VectorExact();
    ReasonExact();
    OptionExact(VECTOR);
    OptionExact(REASON);
    PairExact(OptionOf(VECTOR), OptionOf(REASON));
    PairExact(STATUS, PairOf(OptionOf(VECTOR), OptionOf(REASON)));
    ViaExact(PairOf(STATUS, PairOf(OptionOf(VECTOR), OptionOf(REASON))),
      (p: (Status, (Option<Bytes>, Option<FailReason>))) => Body(p.0, p.1.0, p.1.1),
      (b: Body) => Some((b.status, (b.proof, b.reason))));
  }

  lemma BodyLayout(b: Body)
    ensures var p, r := OptionOf(VECTOR).enc(b.proof), OptionOf(REASON).enc(b.reason);
      BODY.enc(b) == if p.Some? && r.Some? then Some([Discriminant(b.status)] + (p.value + r.value)) else None
  {
  }

  lemma ReasonLayout(r: FailReason)
    ensures var code, detail := VECTOR.enc(r.code), VECTOR.enc(r.detail);
      REASON.enc(r) == if code.Some? && detail.Some? then Some(code.value + detail.value) else None
  {
  }

  function EncodeBody(b: Body): Option<Bytes> { EncodeTagged(VERSION_V1, BODY, b) }

  function DecodeBody(bytes: Bytes): Result<Body, DecodeError> { DecodeTagged(VERSION_V1, BODY, bytes) }

  predicate FitsU32(b: Bytes) { |b| <= 0xFFFF_FFFF }

  predicate BodyFits(b: Body) {
    && (b.proof.Some? ==> FitsU32(b.proof.value))
    && (b.reason.Some? ==> FitsU32(b.reason.value.code) && FitsU32(b.reason.value.detail))
  }

  /** A body decodes exactly from its own encoding, which exists exactly when its lengths fit. */
  lemma StatusBodyRoundTrip(b: Body, bytes: Bytes)
    ensures DecodeBody(bytes) == Ok(b) <==> EncodeBody(b) == Some(bytes)
    ensures EncodeBody(b).Some? <==> BodyFits(b)
  {
    hide BODY, PairOf, Exact, LittleEndian, DecodeTagged;
    BodyExact();
    TaggedExact(VERSION_V1, BODY, bytes, b);
    BodyLayout(b);
    if b.reason.Some? { ReasonLayout(b.reason.value); }
  }

  lemma StatusBodyIsSelfDelimiting(b: Body, bytes: Bytes, other: Bytes)
    ensures EncodeBody(b) == Some(bytes) && (bytes <= other || other <= bytes) && other != bytes ==> DecodeBody(other).Err?
  {
    hide BODY, Exact;
    BodyExact();
    if EncodeBody(b) == Some(bytes) && (bytes <= other || other <= bytes) && DecodeBody(other).Ok? {
      TaggedIsSelfDelimiting(VERSION_V1, BODY, b, bytes, other);
    }
  }

  // --- The envelope ---

  datatype Update = Update(venue: Text, receipt: Bytes, status: Bytes)

  const UPDATE: Codec<Update> := Via(PairOf(TEXT, PairOf(VECTOR, VECTOR)),
    (p: (Text, (Bytes, Bytes))) => Update(p.0, p.1.0, p.1.1), (u: Update) => Some((u.venue, (u.receipt, u.status))))

  lemma UpdateExact()
    ensures Exact(UPDATE)
  {
    hide Exact, PairOf, VECTOR, TEXT;
    TextExact();
    VectorExact();
    PairExact(VECTOR, VECTOR);
    PairExact(TEXT, PairOf(VECTOR, VECTOR));
    ViaExact(PairOf(TEXT, PairOf(VECTOR, VECTOR)),
      (p: (Text, (Bytes, Bytes))) => Update(p.0, p.1.0, p.1.1), (u: Update) => Some((u.venue, (u.receipt, u.status))));
  }

  lemma UpdateLayout(u: Update)
    ensures var v, r, s := VECTOR.enc(u.venue), VECTOR.enc(u.receipt), VECTOR.enc(u.status);
      UPDATE.enc(u) == if v.Some? && r.Some? && s.Some? then Some(v.value + (r.value + s.value)) else None
  {
  }

  function EncodeUpdate(u: Update): Option<Bytes> { EncodeTagged(ENVELOPE_VERSION_V1, UPDATE, u) }

  function DecodeUpdate(bytes: Bytes): Result<Update, DecodeError> { DecodeTagged(ENVELOPE_VERSION_V1, UPDATE, bytes) }

  predicate UpdateFits(u: Update) { FitsU32(u.venue) && FitsU32(u.receipt) && FitsU32(u.status) }

  lemma EnvelopeRoundTrip(u: Update, bytes: Bytes)
    ensures DecodeUpdate(bytes) == Ok(u) <==> EncodeUpdate(u) == Some(bytes)
    ensures EncodeUpdate(u).Some? <==> UpdateFits(u)
  {
    hide UPDATE, PairOf, Exact, LittleEndian, DecodeTagged;
    UpdateExact();
    TaggedExact(ENVELOPE_VERSION_V1, UPDATE, bytes, u);
    UpdateLayout(u);
  }

  lemma EnvelopeIsSelfDelimiting(u: Update, bytes: Bytes, other: Bytes)
    ensures EncodeUpdate(u) == Some(bytes) && (bytes <= other || other <= bytes) && other != bytes ==> DecodeUpdate(other).Err?
  {
    hide UPDATE, Exact;
    UpdateExact();
    if EncodeUpdate(u) == Some(bytes) && (bytes <= other || other <= bytes) && DecodeUpdate(other).Ok? {
      TaggedIsSelfDelimiting(ENVELOPE_VERSION_V1, UPDATE, u, bytes, other);
    }
  }

  /** The bare payload of an envelope shorter than 2^24 bytes never decodes, so a dropped version tag
      is always caught, unless the venue has 256 n + 1 bytes and starts with a zero byte. */
  lemma DroppedTagIsCaught(u: Update, bare: Bytes)
    requires UPDATE.enc(u) == Some(bare) && |bare| < 0x100_0000
    requires |u.venue| % 256 == 1 ==> u.venue[0] != 0
    ensures DecodeUpdate(bare).Err?
  {
    hide UPDATE, LittleEndian, FromLittleEndian;
    BareHead(u, bare);
    if bare[0] == ENVELOPE_VERSION_V1 {
      var payload := bare[1..];
      LengthAtLeast(payload[..4]);
      VenueMustDecode(payload);
    }
  }

  /** Without the condition on the first byte it fails: the bare bytes of a venue named by one NUL
      are the tagged bytes of the same update with an empty venue. */
  lemma NulVenueLosesItsTag(receipt: Bytes, status: Bytes)
    ensures UPDATE.enc(Update([0], receipt, status)) == EncodeUpdate(Update([], receipt, status))
  {
    hide UPDATE, VECTOR;
    NulVector();
    UpdateLayout(Update([0], receipt, status));
    UpdateLayout(Update([], receipt, status));
    var r, s := VECTOR.enc(receipt), VECTOR.enc(status);
    if r.Some? && s.Some? {
      assert [1, 0, 0, 0, 0] + (r.value + s.value) == [1] + ([0, 0, 0, 0] + (r.value + s.value));
    }
  }

  lemma NulVector()
    ensures VECTOR.enc([0]) == Some([1, 0, 0, 0, 0]) && VECTOR.enc([]) == Some([0, 0, 0, 0])
  {
    assert LittleEndian(0, 3) == [0, 0, 0];
    assert LittleEndian(1, 4) == [1, 0, 0, 0] && LittleEndian(0, 4) == [0, 0, 0, 0];
    assert LittleEndian(1, 4) + [0] == [1, 0, 0, 0, 0] && LittleEndian(0, 4) + [] == [0, 0, 0, 0];
  }

  /** For venue ids of at most 256 bytes, that one name is the only way to lose a tag unnoticed. */
  lemma DroppedTagIsCaughtIff(u: Update, bare: Bytes)
    requires UPDATE.enc(u) == Some(bare) && |bare| < 0x100_0000 && |u.venue| <= 256
    ensures DecodeUpdate(bare).Err? <==> u.venue != [0]
  {
    hide UPDATE;
    if u.venue == [0] {
      NulVenueLosesItsTag(u.receipt, u.status);
      EnvelopeRoundTrip(Update([], u.receipt, u.status), bare);
    } else {
      DroppedTagIsCaught(u, bare);
    }
  }

  /** A bare envelope starts with its venue's length: below 2^24, so with a zero fourth byte. */
  lemma BareHead(u: Update, bare: Bytes)
    requires UPDATE.enc(u) == Some(bare) && |bare| < 0x100_0000
    ensures |bare| >= 12 && bare[0] == |u.venue| % 256
    ensures u.venue != [] ==> bare[4] == u.venue[0]
  {
  }

  lemma VenueMustDecode(payload: Bytes)
    requires |payload| >= 4 && |payload| - 4 < FromLittleEndian(payload[..4])
    ensures UPDATE.dec(payload).None?
  {
  }

  lemma LengthAtLeast(b: Bytes)
    requires |b| == 4 && b[3] > 0
    ensures FromLittleEndian(b) >= 0x100_0000
  {
    assert b[1..][1..] == b[2..] && b[2..][1..] == b[3..];
    assert FromLittleEndian(b[3..]) >= 1;
    assert FromLittleEndian(b[2..]) >= 256;
    assert FromLittleEndian(b[1..]) >= 256 * 256;
  }

  // --- From the registry to the keeper ---

  /** `status_body`: the registry attests the lifecycle state only. */
  function RegistryBody(s: Status): Body { Body(s, None, None) }

  /** What one recorded transition puts on the wire. */
  function Publish(venue: Text, receipt: Bytes, s: Status): Option<Bytes> {
    match EncodeBody(RegistryBody(s))
    case None => None
    case Some(body) => EncodeUpdate(Update(venue, receipt, body))
  }

  /** Both layers, as the keeper reads them. */
  function Receive(bytes: Bytes): Result<(Text, Bytes, Body), DecodeError> {
    match DecodeUpdate(bytes)
    case Err(e) => Err(e)
    case Ok(u) =>
      match DecodeBody(u.status)
      case Err(e) => Err(e)
      case Ok(body) => Ok((u.venue, u.receipt, body))
  }

  /** The registry's encode-failure branch is unreachable, the body is the four bytes of its state, and the keeper reads back the same venue,
      receipt and status, with no proof or reason. */
  lemma HostToKeeperFidelity(venue: Text, receipt: Bytes, s: Status)
    requires FitsU32(venue) && FitsU32(receipt)
    ensures EncodeBody(RegistryBody(s)) == Some([1,
      if s.Pending? then 0 else if s.Open? then 1 else if s.Fulfilled? then 2 else if s.Cancelled? then 3 else 4, 0, 0])
    ensures Publish(venue, receipt, s).Some?
    ensures Receive(Publish(venue, receipt, s).value) == Ok((venue, receipt, Body(s, None, None)))
  {
    hide BODY, UPDATE, DecodeBody, DecodeUpdate, EncodeUpdate, VECTOR, REASON;
    var body := [VERSION_V1, Discriminant(s), 0, 0];
    BodyLayout(RegistryBody(s));
    assert [VERSION_V1] + ([Discriminant(s)] + ([0] + [0])) == body;
    StatusBodyRoundTrip(RegistryBody(s), body);
    var u := Update(venue, receipt, body);
    EnvelopeRoundTrip(u, body);
    EnvelopeRoundTrip(u, EncodeUpdate(u).value);
  }

  // --- The encoders as the source writes them: a buffer appended to, field by field ---

  method AppendBytes(out: Bytes, field: Bytes) returns (r: Option<Bytes>)
    ensures r == Appended(out, VECTOR.enc(field))
  {
    if |field| > U32_MAX {
      return None;
    }
    r := Some(out + LittleEndian(|field|, 4) + field);
    assert r.value == out + (LittleEndian(|field|, 4) + field);
  }

  function Appended(out: Bytes, more: Option<Bytes>): Option<Bytes> {
    match more
    case None => None
    case Some(b) => Some(out + b)
  }

  method WriteUpdate(u: Update) returns (r: Option<Bytes>)
    ensures r == EncodeUpdate(u)
  {
    hide UPDATE, VECTOR;
    UpdateLayout(u);
    r := AppendBytes([ENVELOPE_VERSION_V1], u.venue);
    if r.None? { return; }
    r := AppendBytes(r.value, u.receipt);
    if r.None? { return; }
    r := AppendBytes(r.value, u.status);
    if r.Some? {
      Regroup([ENVELOPE_VERSION_V1], VECTOR.enc(u.venue).value, VECTOR.enc(u.receipt).value, VECTOR.enc(u.status).value);
    }
  }

  lemma Regroup(a: Bytes, b: Bytes, c: Bytes, d: Bytes)
    ensures a + b + c + d == a + (b + (c + d)) && a + b + c == a + (b + c)
  {
  }

  /** An optional field: its presence byte, then the field. */
  method AppendProof(out: Bytes, proof: Option<Bytes>) returns (r: Option<Bytes>)
    ensures r == Appended(out, OptionOf(VECTOR).enc(proof))
  {
    hide VECTOR;
    if proof.None? {
      return Some(out + [0]);
    }
    r := AppendBytes(out + [1], proof.value);
    if r.Some? {
      Regroup(out, [1], VECTOR.enc(proof.value).value, []);
    }
  }

  method AppendReason(out: Bytes, reason: Option<FailReason>) returns (r: Option<Bytes>)
    ensures r == Appended(out, OptionOf(REASON).enc(reason))
  {
    hide VECTOR, REASON;
    if reason.None? {
      return Some(out + [0]);
    }
    ReasonLayout(reason.value);
    r := AppendBytes(out + [1], reason.value.code);
    if r.None? { return; }
    r := AppendBytes(r.value, reason.value.detail);
    if r.Some? {
      Regroup(out, [1], VECTOR.enc(reason.value.code).value, VECTOR.enc(reason.value.detail).value);
    }
  }

  method WriteBody(b: Body) returns (r: Option<Bytes>)
    ensures r == EncodeBody(b)
  {
    hide BODY, OptionOf;
    BodyLayout(b);
    var out := [VERSION_V1];
    out := out + [Discriminant(b.status)];
    r := AppendProof(out, b.proof);
    if r.None? { return; }
    r := AppendReason(r.value, b.reason);
    if r.Some? {
      Regroup([VERSION_V1], [Discriminant(b.status)], OptionOf(VECTOR).enc(b.proof).value, OptionOf(REASON).enc(b.reason).value);
    }
  }
}
