/**
 * `CustomPacketPayload`: a payload identified by a resource location, and the
 * two ways of building its codec, by a fixed identifier or by looking the
 * identifier up on the wire.
 */
module Payloads {
  import opened Java
  import opened Buffers
  import opened Codecs

  /** A payload's `id()` and the readable bytes of its `data()`. */
  datatype CustomPayload = CustomPayload(id: string, data: Bytes)

  function IdentifiedDecode(p: Primitives, identifier: string, s: Bytes): Except<(CustomPayload, Bytes)>
  {
    match p.readPayload(s)
    case Throw(e) => Throw(e)
    case Ok((data, rest)) => Ok((CustomPayload(identifier, data), rest))
  }

  /**
   * `codec(identifier)`: decoding takes the payload bytes and labels them with
   * `identifier`; encoding writes the data bytes alone.
   */
  function IdentifiedCodec(p: Primitives, identifier: string): StreamCodec<CustomPayload>
  {
    StreamCodec(s => IdentifiedDecode(p, identifier, s), (buffer, value: CustomPayload) => buffer + value.data)
  }

  lemma IdentifiedCodecLabels(p: Primitives, identifier: string, s: Bytes)
    ensures p.readPayload(s).Ok? <==> IdentifiedCodec(p, identifier).decode(s).Ok?
    ensures p.readPayload(s).Ok? ==>
      IdentifiedCodec(p, identifier).decode(s)
      == Ok((CustomPayload(identifier, p.readPayload(s).value.0), p.readPayload(s).value.1))
  {
  }

  lemma IdentifiedCodecWritesOnlyData(p: Primitives, identifier: string, buffer: Bytes, value: CustomPayload)
    ensures IdentifiedCodec(p, identifier).encode(buffer, value) == buffer + value.data
  {
  }

  /** Decoding what `codec(identifier)` wrote gives the data back under `identifier`. */
  lemma IdentifiedCodecRoundTrip(p: Primitives, identifier: string, value: CustomPayload)
    requires RoundTrips(p)
    ensures var c := IdentifiedCodec(p, identifier);
      c.decode(c.encode([], value)) == Ok((CustomPayload(identifier, value.data), []))
  {
    assert [] + value.data == value.data;
  }

  lemma IdentifiedCodecWellBehaved(p: Primitives, identifier: string)
    requires Consuming(p)
    ensures WellBehaved(IdentifiedCodec(p, identifier))
  {
    forall s ensures ConsumesAt(IdentifiedCodec(p, identifier).decode, s) {
      assert ConsumesAt(p.readPayload, s);
    }
  }

  /** `NetworkRegistry.getCustomPayloadCodec`, whose body is outside this model. */
  type Registered = string -> Option<StreamCodec<CustomPayload>>
  /** `FallbackProvider.create`. */
  type FallbackProvider = string -> StreamCodec<CustomPayload>

  /** `findCodec`: the registered codec for `identifier`, else the fallback's. */
  function FindCodec(registered: Registered, fallback: FallbackProvider, identifier: string): StreamCodec<CustomPayload>
  {
    match registered(identifier)
    case Some(c) => c
    case None => fallback(identifier)
  }

  lemma FindCodecPrefersRegistered(registered: Registered, fallback: FallbackProvider, identifier: string)
    ensures registered(identifier).Some? ==>
      FindCodec(registered, fallback, identifier) == registered(identifier).value
    ensures registered(identifier).None? ==>
      FindCodec(registered, fallback, identifier) == fallback(identifier)
  {
  }

  function FallbackDecode(p: Primitives, registered: Registered, fallback: FallbackProvider, s: Bytes)
    : Except<(CustomPayload, Bytes)>
  {
    match p.readResourceLocation(s)
    case Throw(e) => Throw(e)
    case Ok((identifier, rest)) => FindCodec(registered, fallback, identifier).decode(rest)
  }

  function FallbackEncode(p: Primitives, registered: Registered, fallback: FallbackProvider,
                          buffer: Bytes, payload: CustomPayload): Bytes
  {
    FindCodec(registered, fallback, payload.id).encode(buffer + p.resourceLocationBytes(payload.id), payload)
  }

  /**
   * `codec(fallbackProvider)`: the identifier travels as a resource location
   * in front of the body, which the codec found for it reads and writes.
   */
  function FallbackCodec(p: Primitives, registered: Registered, fallback: FallbackProvider): StreamCodec<CustomPayload>
  {
    StreamCodec(s => FallbackDecode(p, registered, fallback, s),
                (buffer, payload) => FallbackEncode(p, registered, fallback, buffer, payload))
  }

  /** `DEFAULT_CODEC`: the fallback codec falling back on `codec(identifier)`. */
  function DefaultCodec(p: Primitives, registered: Registered): StreamCodec<CustomPayload>
  {
    FallbackCodec(p, registered, identifier => IdentifiedCodec(p, identifier))
  }

  /** The fallback codec reads the resource location, then hands the rest to the codec found for it. */
  lemma FallbackCodecDelegates(p: Primitives, registered: Registered, fallback: FallbackProvider,
                               identifier: string, rest: Bytes)
    requires RoundTrips(p)
    ensures FallbackCodec(p, registered, fallback).decode(p.resourceLocationBytes(identifier) + rest)
         == FindCodec(registered, fallback, identifier).decode(rest)
  {
  }

  /** An identifier nobody registered survives a trip through `DEFAULT_CODEC`, with its data. */
  lemma DefaultCodecRoundTrip(p: Primitives, registered: Registered, payload: CustomPayload)
    requires RoundTrips(p) && registered(payload.id).None?
    ensures var c := DefaultCodec(p, registered);
      c.decode(c.encode([], payload)) == Ok((payload, []))
  {
    assert DefaultCodec(p, registered).encode([], payload) == p.resourceLocationBytes(payload.id) + payload.data;
    FallbackCodecDelegates(p, registered, identifier => IdentifiedCodec(p, identifier), payload.id, payload.data);
  }

  /** The fallback codec's `decode`, on a buffer. */
  method FallbackDecodeFrom(p: Primitives, registered: Registered, fallback: FallbackProvider, buf: ByteBuf)
    returns (r: Except<CustomPayload>)
    requires buf.Valid() && Consuming(p)
    requires forall identifier :: WellBehaved(FindCodec(registered, fallback, identifier))
    modifies buf
    ensures buf.Valid() && buf.bytes == old(buf.bytes)
    ensures Decoded(r, FallbackDecode(p, registered, fallback, old(buf.Unread())), buf.Unread())
  {
    var identifier := Decode(p.readResourceLocation, buf);
    if identifier.Throw? {
      return Throw(identifier.error);
    }
    var c := FindCodec(registered, fallback, identifier.value);
    assert WellBehaved(c);
    r := Decode(c.decode, buf);
  }

  /** The fallback codec's `encode` (`writeCap`), on a buffer. */
  method FallbackEncodeInto(p: Primitives, registered: Registered, fallback: FallbackProvider,
                            buf: ByteBuf, payload: CustomPayload)
    requires buf.Valid() && WellBehaved(FindCodec(registered, fallback, payload.id))
    modifies buf
    ensures buf.Valid() && buf.readerIndex == old(buf.readerIndex)
    ensures buf.bytes == FallbackEncode(p, registered, fallback, old(buf.bytes), payload)
  {
    buf.WriteBytes(p.resourceLocationBytes(payload.id));
    var c := FindCodec(registered, fallback, payload.id);
    assert AppendsAt(c.encode, buf.bytes, payload);
    Encode(c.encode, buf, payload);
  }
}

/**
 * The login query payloads: `CustomQueryPayloadImpl` (an identifier and the
 * data) and `CustomQueryAnswerPayloadImpl` (the data alone).
 */
module LoginPayloads {
  import opened Java
  import opened Buffers
  import opened Codecs

  datatype QueryPayload = QueryPayload(id: string, data: Bytes)

  /** `CustomQueryPayloadImpl.read`: a resource location, then the payload bytes. */
  function DecodeQuery(p: Primitives, s: Bytes): Except<(QueryPayload, Bytes)>
  {
    match p.readResourceLocation(s)
    case Throw(e) => Throw(e)
    case Ok((id, rest)) =>
      match p.readPayload(rest)
      case Throw(e) => Throw(e)
      case Ok((data, left)) => Ok((QueryPayload(id, data), left))
  }

  /** What `CustomQueryPayloadImpl.write` appends. */
  function QueryBytes(p: Primitives, q: QueryPayload): Bytes
  {
    p.resourceLocationBytes(q.id) + q.data
  }

  /** `CustomQueryPayloadImpl.STREAM_CODEC`, which `codec()` and `CustomQueryPayload.DEFAULT_CODEC` return. */
  function QueryCodec(p: Primitives): StreamCodec<QueryPayload>
  {
    OfMember((q, buffer) => buffer + QueryBytes(p, q), s => DecodeQuery(p, s))
  }

  lemma QueryRoundTrip(p: Primitives, q: QueryPayload)
    requires RoundTrips(p)
    ensures QueryCodec(p).decode(QueryCodec(p).encode([], q)) == Ok((q, []))
  {
    assert QueryCodec(p).encode([], q) == p.resourceLocationBytes(q.id) + q.data;
  }

  lemma QueryCodecWellBehaved(p: Primitives)
    requires Consuming(p)
    ensures WellBehaved(QueryCodec(p))
  {
    forall s ensures ConsumesAt(QueryCodec(p).decode, s) {
      assert ConsumesAt(p.readResourceLocation, s);
      if p.readResourceLocation(s).Ok? {
        assert ConsumesAt(p.readPayload, p.readResourceLocation(s).value.1);
      }
    }
  }

  method ReadQuery(p: Primitives, buf: ByteBuf) returns (r: Except<QueryPayload>)
    requires buf.Valid() && Consuming(p)
    modifies buf
    ensures buf.Valid() && buf.bytes == old(buf.bytes)
    ensures Decoded(r, DecodeQuery(p, old(buf.Unread())), buf.Unread())
  {
    var id := Decode(p.readResourceLocation, buf);
    if id.Throw? {
      return Throw(id.error);
    }
    var data := Decode(p.readPayload, buf);
    if data.Throw? {
      return Throw(data.error);
    }
    r := Ok(QueryPayload(id.value, data.value));
  }

  method WriteQuery(p: Primitives, q: QueryPayload, buf: ByteBuf)
    requires buf.Valid()
    modifies buf
    ensures buf.Valid() && buf.readerIndex == old(buf.readerIndex)
    ensures buf.bytes == QueryCodec(p).encode(old(buf.bytes), q)
  {
    buf.WriteBytes(p.resourceLocationBytes(q.id));
    buf.WriteBytes(q.data);
  }

  datatype AnswerPayload = AnswerPayload(data: Bytes)

  /** `CustomQueryAnswerPayloadImpl.read`: the payload bytes, no prefix. */
  function DecodeAnswer(p: Primitives, s: Bytes): Except<(AnswerPayload, Bytes)>
  {
    match p.readPayload(s)
    case Throw(e) => Throw(e)
    case Ok((data, rest)) => Ok((AnswerPayload(data), rest))
  }

  /** `CustomQueryAnswerPayloadImpl.STREAM_CODEC`; `write` appends the data bytes alone. */
  function AnswerCodec(p: Primitives): StreamCodec<AnswerPayload>
  {
    OfMember((a: AnswerPayload, buffer) => buffer + a.data, s => DecodeAnswer(p, s))
  }

  lemma AnswerRoundTrip(p: Primitives, a: AnswerPayload)
    requires RoundTrips(p)
    ensures AnswerCodec(p).decode(AnswerCodec(p).encode([], a)) == Ok((a, []))
  {
    assert AnswerCodec(p).encode([], a) == a.data;
  }

  lemma AnswerCodecWellBehaved(p: Primitives)
    requires Consuming(p)
    ensures WellBehaved(AnswerCodec(p))
  {
    forall s ensures ConsumesAt(AnswerCodec(p).decode, s) {
      assert ConsumesAt(p.readPayload, s);
    }
  }

  method ReadAnswer(p: Primitives, buf: ByteBuf) returns (r: Except<AnswerPayload>)
    requires buf.Valid() && Consuming(p)
    modifies buf
    ensures buf.Valid() && buf.bytes == old(buf.bytes)
    ensures Decoded(r, DecodeAnswer(p, old(buf.Unread())), buf.Unread())
  {
    var data := Decode(p.readPayload, buf);
    if data.Throw? {
      return Throw(data.error);
    }
    r := Ok(AnswerPayload(data.value));
  }

  method WriteAnswer(p: Primitives, a: AnswerPayload, buf: ByteBuf)
    requires buf.Valid()
    modifies buf
    ensures buf.Valid() && buf.readerIndex == old(buf.readerIndex)
    ensures buf.bytes == AnswerCodec(p).encode(old(buf.bytes), a)
  {
    buf.WriteBytes(a.data);
  }
}
