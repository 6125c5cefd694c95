/**
 * `StreamCodec`: a decoder and an encoder over a byte buffer, bundled.
 *
 * A decoder sees the buffer's readable bytes and either throws or returns the
 * value it read together with the bytes it left unread; an encoder sees the
 * bytes written so far and returns them with the value's bytes appended.
 * `Decode` and `Encode` run them on a `ByteBuf` in place.
 */
module Codecs {
  import opened Java
  import opened Buffers

  type Bytes = seq<bv8>

  /** `StreamDecoder.decode(buffer)`. */
  type Decoder<V> = Bytes -> Except<(V, Bytes)>
  /** `StreamEncoder.encode(buffer, value)`. */
  type Encoder<-V> = (Bytes, V) -> Bytes
  /** `StreamMemberEncoder.encode(value, buffer)`: the value comes first. */
  type MemberEncoder<-V> = (V, Bytes) -> Bytes

  datatype StreamCodec<!V> = StreamCodec(decode: Decoder<V>, encode: Encoder<V>)

  /** `StreamCodec.of`. */
  function Of<V>(encoder: Encoder<V>, decoder: Decoder<V>): StreamCodec<V>
  {
    StreamCodec(decoder, encoder)
  }

  /** `StreamCodec.ofMember` (also `Packet.codec` and the payload `codec` helpers). */
  function OfMember<V>(encoder: MemberEncoder<V>, decoder: Decoder<V>): StreamCodec<V>
  {
    StreamCodec(decoder, (buffer, value) => encoder(value, buffer))
  }

  lemma OfDelegates<V>(encoder: Encoder<V>, decoder: Decoder<V>, buffer: Bytes, value: V)
    ensures Of(encoder, decoder).decode(buffer) == decoder(buffer)
    ensures Of(encoder, decoder).encode(buffer, value) == encoder(buffer, value)
  {
  }

  lemma OfMemberSwapsArguments<V>(encoder: MemberEncoder<V>, decoder: Decoder<V>, buffer: Bytes, value: V)
    ensures OfMember(encoder, decoder).decode(buffer) == decoder(buffer)
    ensures OfMember(encoder, decoder).encode(buffer, value) == encoder(value, buffer)
  {
  }

  predicate IsSuffix(rest: Bytes, s: Bytes)
  {
    |rest| <= |s| && s[|s| - |rest|..] == rest
  }

  /** On input `s` the decoder only consumes: what it leaves unread ends `s`. */
  ghost predicate ConsumesAt<V>(decoder: Decoder<V>, s: Bytes)
  {
    decoder(s).Ok? ==> IsSuffix(decoder(s).value.1, s)
  }

  /** On these arguments the encoder only appends. */
  ghost predicate AppendsAt<V>(encoder: Encoder<V>, buffer: Bytes, value: V)
  {
    buffer <= encoder(buffer, value)
  }

  /** A codec whose decoder only consumes and whose encoder only appends. */
  ghost predicate WellBehaved<V(!new)>(c: StreamCodec<V>)
  {
    (forall s :: ConsumesAt(c.decode, s)) && (forall buffer, v :: AppendsAt(c.encode, buffer, v))
  }

  /**
   * `r` is what decoding returned when `outcome` is what the decoder makes of
   * the readable bytes, and `after` is what is left readable when it returns.
   * After an exception the reader index is left unspecified.
   */
  ghost predicate Decoded<V>(r: Except<V>, outcome: Except<(V, Bytes)>, after: Bytes)
  {
    match outcome
    case Ok((v, rest)) => r == Ok(v) && after == rest
    case Throw(e) => r == Throw(e)
  }

  /** Run a decoder on the buffer, advancing the reader index past what it read. */
  method Decode<V>(decoder: Decoder<V>, buf: ByteBuf) returns (r: Except<V>)
    requires buf.Valid() && ConsumesAt(decoder, buf.Unread())
    modifies buf
    ensures buf.Valid() && buf.bytes == old(buf.bytes)
    ensures Decoded(r, decoder(old(buf.Unread())), buf.Unread())
  {
    var outcome := decoder(buf.Unread());
    match outcome
    case Ok((v, rest)) =>
      buf.Skip(|buf.Unread()| - |rest|);
      r := Ok(v);
    case Throw(e) =>
      r := Throw(e);
  }

  /** Run an encoder on the buffer, appending the value's bytes. */
  method Encode<V>(encoder: Encoder<V>, buf: ByteBuf, value: V)
    requires buf.Valid() && AppendsAt(encoder, buf.bytes, value)
    modifies buf
    ensures buf.Valid() && buf.readerIndex == old(buf.readerIndex)
    ensures buf.bytes == encoder(old(buf.bytes), value)
  {
    var written := encoder(buf.bytes, value);
    buf.WriteBytes(written[|buf.bytes|..]);
  }

  /**
   * The static `FriendlyByteBuf` helpers the codecs call, whose bodies are
   * outside this model: readers as decoders, writers as the bytes they append.
   * `readPresent`/`presentBytes` are the presence flag that `readNullable` and
   * `writeNullable` put before an optional value.
   */
  datatype Primitives = Primitives(
    readVarInt: Decoder<int>,
    varIntBytes: int -> Bytes,
    readResourceLocation: Decoder<string>,
    resourceLocationBytes: string -> Bytes,
    readPayload: Decoder<Bytes>,
    readPresent: Decoder<bool>,
    presentBytes: bool -> Bytes)

  /** Every reader only consumes. */
  ghost predicate Consuming(p: Primitives)
  {
    (forall s :: ConsumesAt(p.readVarInt, s))
    && (forall s :: ConsumesAt(p.readResourceLocation, s))
    && (forall s :: ConsumesAt(p.readPayload, s))
    && (forall s :: ConsumesAt(p.readPresent, s))
  }

  /**
   * Each reader reads back what its writer wrote, leaving what follows; the
   * payload reader takes every readable byte.
   */
  ghost predicate RoundTrips(p: Primitives)
  {
    (forall v, rest :: p.readVarInt(p.varIntBytes(v) + rest) == Ok((v, rest)))
    && (forall id, rest :: p.readResourceLocation(p.resourceLocationBytes(id) + rest) == Ok((id, rest)))
    && (forall b, rest :: p.readPresent(p.presentBytes(b) + rest) == Ok((b, rest)))
    && (forall s :: p.readPayload(s) == Ok((s, [])))
  }
}
