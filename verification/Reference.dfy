/**
 The reference venue's published schema, as an instance of the version-enum codec,
 and the header derivation its goldens pin.
 */
module Reference {
  import opened Prelude
  import opened Borsh
  import opened IntentBody
  import opened Uint

  datatype Payload =
    | V1(amountWei: U64, memo: Text)
    | V2(amountWei: U64, memo: Text, validUntilMs: Option<U64>, recipient: Bytes, urgent: bool)

  const V1_CODEC: Codec<Payload> := Via(PairOf(WORD64, TEXT),
    (p: (U64, Text)) => V1(p.0, p.1),
    (y: Payload) => match y case V1(a, m) => Some((a, m)) case _ => None)

  type Fields2 = (U64, (Text, (Option<U64>, (Bytes, bool))))

  const FIELDS2: Codec<Fields2> :=
    PairOf(WORD64, PairOf(TEXT, PairOf(OptionOf(WORD64), PairOf(VECTOR, FLAG))))

  const V2_CODEC: Codec<Payload> := Via(FIELDS2,
    (p: Fields2) => V2(p.0, p.1.0, p.1.1.0, p.1.1.1.0, p.1.1.1.1),
    (y: Payload) => match y case V2(a, m, v, r, u) => Some((a, (m, (v, (r, u))))) case _ => None)

  /** `ReferenceBody`: V1 at tag 0, V2 at tag 1. */
  const SCHEMA: seq<Codec<Payload>> := [V1_CODEC, V2_CODEC]

  lemma V1Exact()
    ensures Exact(V1_CODEC)
  {
    hide Exact, PairOf, WORD64, TEXT;
    Word64Exact();
    TextExact();
    PairExact(WORD64, TEXT);
    ViaExact(PairOf(WORD64, TEXT),
      (p: (U64, Text)) => V1(p.0, p.1),
      (y: Payload) => match y case V1(a, m) => Some((a, m)) case _ => None);
  }

  lemma V2Exact()
    ensures Exact(V2_CODEC)
  {
    hide Exact, PairOf, WORD64, OptionOf, TEXT, VECTOR, FLAG;
    Word64Exact();
    TextExact();
    VectorExact();
    FlagExact();
    OptionExact(WORD64);
    PairExact(VECTOR, FLAG);
    PairExact(OptionOf(WORD64), PairOf(VECTOR, FLAG));
    PairExact(TEXT, PairOf(OptionOf(WORD64), PairOf(VECTOR, FLAG)));
    PairExact(WORD64, PairOf(TEXT, PairOf(OptionOf(WORD64), PairOf(VECTOR, FLAG))));
    ViaExact(FIELDS2,
      (p: Fields2) => V2(p.0, p.1.0, p.1.1.0, p.1.1.1.0, p.1.1.1.1),
      (y: Payload) => match y case V2(a, m, v, r, u) => Some((a, (m, (v, (r, u))))) case _ => None);
  }

  lemma ReferenceSchemaExact()
    ensures ExactSchema(SCHEMA)
  {
    hide Exact, V1_CODEC, V2_CODEC;
    V1Exact();
    V2Exact();
  }

  // --- The header ---

  datatype Asset = Native | Erc20(token: Bytes)

  datatype AssetAmount = AssetAmount(asset: Asset, amount: Bytes)

  datatype Header = Header(gives: AssetAmount, wants: AssetAmount, chain: nat, eip712: bool)

  function DeriveHeader(bytes: Bytes): Result<Header, BodyError> {
    match FromBytes(SCHEMA, bytes)
    case Err(e) => Err(e)
    case Ok(body) =>
      var gives := AssetAmount(Native, EncodeUint(body.payload.amountWei));
      match body.payload
      case V1(_, _) => Ok(Header(gives, AssetAmount(Native, []), 1, true))
      case V2(amount, _, _, recipient, _) => Ok(Header(gives, AssetAmount(Erc20(recipient), EncodeUint(amount)), 1, true))
  }

  /** The amount each side of the header carries reads back, through the canonical decoder, as the
      submitted amount: what is given, and what v2 wants at the recipient's token; v1 wants zero. */
  lemma HeaderCarriesTheAmount(body: Body<Payload>, bytes: Bytes)
    requires body.version < 2 && ToBytes(SCHEMA, body) == Ok(bytes)
    ensures DeriveHeader(bytes).Ok?
    ensures var h := DeriveHeader(bytes).value;
      && h.gives.asset == Native && DecodeUint(h.gives.amount) == Ok(body.payload.amountWei)
      && (body.payload.V1? ==> h.wants.asset == Native && DecodeUint(h.wants.amount) == Ok(0))
      && (body.payload.V2? ==>
            h.wants.asset == Erc20(body.payload.recipient) && DecodeUint(h.wants.amount) == Ok(body.payload.amountWei))
      && (body.payload.V1? <==> body.version == 0)
      && h.chain == 1 && h.eip712
  {
    VersionShapes(body);
    EightBytesFit(body.payload.amountWei);
    hide Exact, V1_CODEC, V2_CODEC, EncodeUint, DecodeUint, Pow256;
    ReferenceSchemaExact();
    BodyRoundTrip(SCHEMA, body, bytes);
    EncodeThenDecode(body.payload.amountWei);
    assert DecodeUint([]) == Ok(0) by { DecodeEmpty(); }
  }

  /** What does not decode derives no header, and fails with the decoder's own error. */
  lemma HeaderErrors(bytes: Bytes)
    ensures match FromBytes(SCHEMA, bytes)
            case Ok(_) => DeriveHeader(bytes).Ok?
            case Err(e) => DeriveHeader(bytes) == Err(e)
  {
    hide SCHEMA, EncodeUint;
  }

  lemma DecodeEmpty()
    ensures DecodeUint([]) == Ok(0)
  {
  }

  lemma EightBytesFit(x: U64)
    ensures x < Pow256(WORD)
  {
  }

  /** An encodable payload has its version's shape. */
  lemma VersionShapes(body: Body<Payload>)
    requires body.version < 2 && SCHEMA[body.version].enc(body.payload).Some?
    ensures body.payload.V1? <==> body.version == 0
  {
  }
}
