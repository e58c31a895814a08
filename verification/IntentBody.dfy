/**
 The versioned intent body: a one-byte tag at the variant's declaration index, then
 that variant's Borsh payload. `Expand` builds the arms from the enum's declaration;
 the codec over them is exact, and appending versions disturbs nothing.
 */
module IntentBody {
  import opened Prelude
  import opened Borsh

  // --- The derive ---

  /** A declared variant, as far as the derive looks: an explicit discriminant, and its fields. */
  datatype Variant = Variant(explicitDiscriminant: bool, newtype_: bool)

  datatype ExpandError = Generic | NotAnEnum | NoVariants | TooManyVersions | ExplicitDiscriminant(index: nat) | NotNewtype(index: nat)

  datatype Declaration = Declaration(generic: bool, isEnum: bool, variants: seq<Variant>)

  predicate Plain(v: Variant) { !v.explicitDiscriminant && v.newtype_ }

  /** `expand`: the tags of the arms in order, or the first fault found. */
  method Expand(d: Declaration) returns (r: Result<seq<Byte>, ExpandError>)
    ensures r.Ok? <==>
      !d.generic && d.isEnum && 0 < |d.variants| <= 256 && forall i :: 0 <= i < |d.variants| ==> Plain(d.variants[i])
    ensures r.Ok? ==> |r.value| == |d.variants| && forall i :: 0 <= i < |r.value| ==> r.value[i] == i
    ensures r.Err? && (r.error.ExplicitDiscriminant? || r.error.NotNewtype?) ==>
      && !d.generic && d.isEnum && r.error.index < |d.variants| <= 256 && !Plain(d.variants[r.error.index])
      && (r.error.ExplicitDiscriminant? <==> d.variants[r.error.index].explicitDiscriminant)
      && forall i :: 0 <= i < r.error.index ==> Plain(d.variants[i])
    ensures r == Err(Generic) <==> d.generic
    ensures r == Err(NotAnEnum) <==> !d.generic && !d.isEnum
    ensures r == Err(NoVariants) <==> !d.generic && d.isEnum && d.variants == []
    ensures r == Err(TooManyVersions) <==> !d.generic && d.isEnum && |d.variants| > 256
  {
    if d.generic { return Err(Generic); }
    if !d.isEnum { return Err(NotAnEnum); }
    if d.variants == [] { return Err(NoVariants); }
    if |d.variants| > 256 { return Err(TooManyVersions); }
    var arms: seq<Byte> := [];
    for index := 0 to |d.variants|
      invariant |arms| == index
      invariant forall i :: 0 <= i < index ==> arms[i] == i && Plain(d.variants[i])
    {
      if d.variants[index].explicitDiscriminant {
        return Err(ExplicitDiscriminant(index));
      }
      if !d.variants[index].newtype_ {
        return Err(NotNewtype(index));
      }
      arms := arms + [index];
    }
    r := Ok(arms);
  }

  // --- The generated codec ---

  /** A body: which version, and that version's payload. */
  datatype Body<+P> = Body(version: nat, payload: P)

  datatype BodyError = Empty | UnknownVersion(version: Byte) | Malformed(version: Byte) | Encode(version: Byte)

  /** One exact codec per declared version, in declaration order. */
  ghost predicate ExactSchema<P(!new)>(arms: seq<Codec<P>>) {
    |arms| <= 256 && forall i :: 0 <= i < |arms| ==> Exact(arms[i])
  }

  function ToBytes<P>(arms: seq<Codec<P>>, b: Body<P>): Result<Bytes, BodyError>
    requires b.version < |arms| <= 256
  {
    match arms[b.version].enc(b.payload)
    case None => Err(Encode(b.version))
    case Some(payload) => Ok([b.version] + payload)
  }

  function FromBytes<P>(arms: seq<Codec<P>>, bytes: Bytes): Result<Body<P>, BodyError> {
    if bytes == [] then Err(Empty)
    else if bytes[0] < |arms| then
      match FromSlice(arms[bytes[0]], bytes[1..])
      case None => Err(Malformed(bytes[0]))
      case Some(payload) => Ok(Body(bytes[0], payload))
    else Err(UnknownVersion(bytes[0]))
  }

  /** `to_bytes` and `from_bytes` are mutual inverses. */
  lemma BodyRoundTrip<P(!new)>(arms: seq<Codec<P>>, b: Body<P>, bytes: Bytes)
    requires ExactSchema(arms) && b.version < |arms|
    ensures FromBytes(arms, bytes) == Ok(b) <==> ToBytes(arms, b) == Ok(bytes)
  {
    if bytes != [] && bytes[0] == b.version {
      FromSliceExact(arms[b.version], bytes[1..], b.payload);
      assert bytes == [bytes[0]] + bytes[1..];
    }
    if arms[b.version].enc(b.payload).Some? {
      assert ([b.version] + arms[b.version].enc(b.payload).value)[1..] == arms[b.version].enc(b.payload).value;
    }
  }

  /** The tag is the version's declaration index, ahead of its payload; encoding fails only in the payload. */
  lemma BodyTag<P(!new)>(arms: seq<Codec<P>>, b: Body<P>)
    requires b.version < |arms| <= 256
    ensures match ToBytes(arms, b)
            case Ok(bytes) => bytes != [] && bytes[0] == b.version && arms[b.version].enc(b.payload) == Some(bytes[1..])
            case Err(e) => e == Encode(b.version) && arms[b.version].enc(b.payload).None?
  {
    if arms[b.version].enc(b.payload).Some? {
      assert ([b.version] + arms[b.version].enc(b.payload).value)[1..] == arms[b.version].enc(b.payload).value;
    }
  }

  /** Which bytes fail to decode, and with what: none at all, a tag no version has, or a known tag whose
      payload is not one of that version's. */
  lemma BodyErrors<P(!new)>(arms: seq<Codec<P>>, bytes: Bytes)
    requires ExactSchema(arms)
    ensures FromBytes(arms, bytes) == Err(Empty) <==> bytes == []
    ensures forall v: Byte :: FromBytes(arms, bytes) == Err(UnknownVersion(v)) <==> bytes != [] && v == bytes[0] && |arms| <= v
    ensures forall v: Byte :: FromBytes(arms, bytes) == Err(Malformed(v)) <==>
      && bytes != [] && v == bytes[0] && v < |arms|
      && forall b: Body<P> :: b.version == v ==> ToBytes(arms, b) != Ok(bytes)
  {
    if bytes != [] && bytes[0] < |arms| {
      forall b: Body<P> | b.version == bytes[0] ensures FromBytes(arms, bytes) == Ok(b) <==> ToBytes(arms, b) == Ok(bytes) {
        BodyRoundTrip(arms, b, bytes);
      }
      if FromBytes(arms, bytes).Ok? {
        assert ToBytes(arms, FromBytes(arms, bytes).value) == Ok(bytes);
      }
    }
  }

  /** Appending versions leaves every old encoding and every answer for an old tag as it was, and
      the old decoder refuses every new tag by name. */
  lemma AppendOnlyEvolution<P(!new)>(arms: seq<Codec<P>>, more: seq<Codec<P>>, b: Body<P>, bytes: Bytes)
    requires ExactSchema(arms + more)
    ensures b.version < |arms| ==> ToBytes(arms + more, b) == ToBytes(arms, b)
    ensures bytes == [] || bytes[0] < |arms| ==> FromBytes(arms + more, bytes) == FromBytes(arms, bytes)
    ensures |arms| <= b.version < |arms + more| && ToBytes(arms + more, b) == Ok(bytes) ==>
      && FromBytes(arms + more, bytes) == Ok(b)
      && FromBytes(arms, bytes) == Err(UnknownVersion(b.version))
  {
    if b.version < |arms + more| {
      BodyRoundTrip(arms + more, b, bytes);
    }
  }
}
