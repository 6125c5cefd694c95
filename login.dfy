/**
 * The two login-phase packets: `ClientboundCustomQueryPacket` (a transaction
 * id and a query payload) and `ServerboundCustomQueryAnswerPacket` (a
 * transaction id and an optional answer payload).
 */
module LoginPackets {
  import opened Java
  import opened Buffers
  import opened Codecs
  import opened LoginPayloads

  datatype ClientboundQuery = ClientboundQuery(transactionId: int, payload: QueryPayload)

  /** The buffer constructor: a VarInt transaction id, then the payload by `CustomQueryPayload.DEFAULT_CODEC`. */
  function DecodeClientbound(p: Primitives, s: Bytes): Except<(ClientboundQuery, Bytes)>
  {
    match p.readVarInt(s)
    case Throw(e) => Throw(e)
    case Ok((transactionId, rest)) =>
      match QueryCodec(p).decode(rest)
      case Throw(e) => Throw(e)
      case Ok((payload, left)) => Ok((ClientboundQuery(transactionId, payload), left))
  }

  /** `write`: the VarInt transaction id, then the payload by its `codec()`, which is `DEFAULT_CODEC` for the payloads modelled here. */
  function EncodeClientbound(p: Primitives, buffer: Bytes, packet: ClientboundQuery): Bytes
  {
    QueryCodec(p).encode(buffer + p.varIntBytes(packet.transactionId), packet.payload)
  }

  /** `ClientboundCustomQueryPacket.STREAM_CODEC`. */
  function ClientboundCodec(p: Primitives): StreamCodec<ClientboundQuery>
  {
    OfMember((packet, buffer) => EncodeClientbound(p, buffer, packet), s => DecodeClientbound(p, s))
  }

  lemma ClientboundRoundTrip(p: Primitives, packet: ClientboundQuery)
    requires RoundTrips(p)
    ensures ClientboundCodec(p).decode(ClientboundCodec(p).encode([], packet)) == Ok((packet, []))
  {
    var body := QueryBytes(p, packet.payload);
    assert ClientboundCodec(p).encode([], packet) == p.varIntBytes(packet.transactionId) + body;
    QueryRoundTrip(p, packet.payload);
    assert QueryCodec(p).encode([], packet.payload) == body;
  }

  method ReadClientbound(p: Primitives, buf: ByteBuf) returns (r: Except<ClientboundQuery>)
    requires buf.Valid() && Consuming(p)
    modifies buf
    ensures buf.Valid() && buf.bytes == old(buf.bytes)
    ensures Decoded(r, DecodeClientbound(p, old(buf.Unread())), buf.Unread())
  {
    var transactionId := Decode(p.readVarInt, buf);
    if transactionId.Throw? {
      return Throw(transactionId.error);
    }
    var payload := ReadQuery(p, buf);
    if payload.Throw? {
      return Throw(payload.error);
    }
    r := Ok(ClientboundQuery(transactionId.value, payload.value));
  }

  method WriteClientbound(p: Primitives, packet: ClientboundQuery, buf: ByteBuf)
    requires buf.Valid()
    modifies buf
    ensures buf.Valid() && buf.readerIndex == old(buf.readerIndex)
    ensures buf.bytes == EncodeClientbound(p, old(buf.bytes), packet)
  {
    buf.WriteBytes(p.varIntBytes(packet.transactionId));
    WriteQuery(p, packet.payload, buf);
  }

  /** A `null` payload is `None`. */
  datatype ServerboundAnswer = ServerboundAnswer(transactionId: int, payload: Option<AnswerPayload>)

  /** The one-argument constructor: an answer without a payload. */
  function NewServerboundAnswer(transactionId: int): (r: ServerboundAnswer)
    ensures r.transactionId == transactionId && r.payload.None?
  {
    ServerboundAnswer(transactionId, None)
  }

  /** `readNullable` with `CustomQueryAnswerPayload.DEFAULT_CODEC`: a presence flag, then the payload when present. */
  function DecodeNullableAnswer(p: Primitives, s: Bytes): Except<(Option<AnswerPayload>, Bytes)>
  {
    match p.readPresent(s)
    case Throw(e) => Throw(e)
    case Ok((present, rest)) =>
      if !present then Ok((None, rest))
      else
        match AnswerCodec(p).decode(rest)
        case Throw(e) => Throw(e)
        case Ok((a, left)) => Ok((Some(a), left))
  }

  /** `writeNullable`: the presence flag, then the payload when present. */
  function EncodeNullableAnswer(p: Primitives, buffer: Bytes, payload: Option<AnswerPayload>): Bytes
  {
    match payload
    case None => buffer + p.presentBytes(false)
    case Some(a) => AnswerCodec(p).encode(buffer + p.presentBytes(true), a)
  }

  /** The buffer constructor: a VarInt transaction id, then the nullable payload. */
  function DecodeServerbound(p: Primitives, s: Bytes): Except<(ServerboundAnswer, Bytes)>
  {
    match p.readVarInt(s)
    case Throw(e) => Throw(e)
    case Ok((transactionId, rest)) =>
      match DecodeNullableAnswer(p, rest)
      case Throw(e) => Throw(e)
      case Ok((payload, left)) => Ok((ServerboundAnswer(transactionId, payload), left))
  }

  /** A label for the `NullPointerException` raised by dereferencing the missing payload; the JVM's own message is not modelled. */
  const NULL_PAYLOAD: string := "this.payload"

  /**
   * `write` as written: the transaction id goes out, then `payload.codec()` is
   * evaluated for `writeNullable` whether or not there is a payload. Returns
   * the bytes in the buffer afterwards and how the call ended.
   */
  function EncodeServerboundAsWritten(p: Primitives, buffer: Bytes, packet: ServerboundAnswer): (Bytes, Except<()>)
  {
    var afterId := buffer + p.varIntBytes(packet.transactionId);
    match packet.payload
    case None => (afterId, Throw(NullPointer(NULL_PAYLOAD)))
    case Some(_) => (EncodeNullableAnswer(p, afterId, packet.payload), Ok(()))
  }

  /** `write` as intended: the transaction id, then `writeNullable` of the payload. */
  function EncodeServerbound(p: Primitives, buffer: Bytes, packet: ServerboundAnswer): Bytes
  {
    EncodeNullableAnswer(p, buffer + p.varIntBytes(packet.transactionId), packet.payload)
  }

  /** `ServerboundCustomQueryAnswerPacket.STREAM_CODEC`, with the intended `write`. */
  function ServerboundCodec(p: Primitives): StreamCodec<ServerboundAnswer>
  {
    OfMember((packet, buffer) => EncodeServerbound(p, buffer, packet), s => DecodeServerbound(p, s))
  }

  /** As written, a packet from the one-argument constructor cannot be written at all. */
  lemma AsWrittenRejectsAnswerWithoutPayload(p: Primitives, buffer: Bytes, transactionId: int)
    ensures EncodeServerboundAsWritten(p, buffer, NewServerboundAnswer(transactionId)).1
         == Throw(NullPointer(NULL_PAYLOAD))
  {
  }

  /** Where a payload is present, the written and the intended `write` agree. */
  lemma AsWrittenAgreesWithPayload(p: Primitives, buffer: Bytes, packet: ServerboundAnswer)
    requires packet.payload.Some?
    ensures EncodeServerboundAsWritten(p, buffer, packet) == (EncodeServerbound(p, buffer, packet), Ok(()))
  {
  }

  /** With the intended `write`, every answer packet, with or without a payload, decodes back to itself. */
  lemma ServerboundRoundTrip(p: Primitives, packet: ServerboundAnswer)
    requires RoundTrips(p)
    ensures ServerboundCodec(p).decode(ServerboundCodec(p).encode([], packet)) == Ok((packet, []))
  {
    var id := p.varIntBytes(packet.transactionId);
    match packet.payload
    case None =>
      assert ServerboundCodec(p).encode([], packet) == id + (p.presentBytes(false) + []);
    case Some(a) =>
      assert ServerboundCodec(p).encode([], packet) == id + (p.presentBytes(true) + a.data);
      assert DecodeAnswer(p, a.data) == Ok((a, []));
  }

  method ReadServerbound(p: Primitives, buf: ByteBuf) returns (r: Except<ServerboundAnswer>)
    requires buf.Valid() && Consuming(p)
    modifies buf
    ensures buf.Valid() && buf.bytes == old(buf.bytes)
    ensures Decoded(r, DecodeServerbound(p, old(buf.Unread())), buf.Unread())
  {
    var transactionId := Decode(p.readVarInt, buf);
    if transactionId.Throw? {
      return Throw(transactionId.error);
    }
    var present := Decode(p.readPresent, buf);
    if present.Throw? {
      return Throw(present.error);
    }
    if !present.value {
      return Ok(ServerboundAnswer(transactionId.value, None));
    }
    var payload := ReadAnswer(p, buf);
    if payload.Throw? {
      return Throw(payload.error);
    }
    r := Ok(ServerboundAnswer(transactionId.value, Some(payload.value)));
  }

  /** `write` as written: throws on a missing payload after the transaction id is out. */
  method WriteServerboundAsWritten(p: Primitives, packet: ServerboundAnswer, buf: ByteBuf) returns (r: Except<()>)
    requires buf.Valid()
    modifies buf
    ensures buf.Valid() && buf.readerIndex == old(buf.readerIndex)
    ensures (buf.bytes, r) == EncodeServerboundAsWritten(p, old(buf.bytes), packet)
  {
    buf.WriteBytes(p.varIntBytes(packet.transactionId));
    if packet.payload.None? {
      return Throw(NullPointer(NULL_PAYLOAD));
    }
    buf.WriteBytes(p.presentBytes(true));
    WriteAnswer(p, packet.payload.value, buf);
    r := Ok(());
  }

  /** `write` as intended: `writeNullable` handles the missing payload. */
  method WriteServerbound(p: Primitives, packet: ServerboundAnswer, buf: ByteBuf)
    requires buf.Valid()
    modifies buf
    ensures buf.Valid() && buf.readerIndex == old(buf.readerIndex)
    ensures buf.bytes == EncodeServerbound(p, old(buf.bytes), packet)
  {
    buf.WriteBytes(p.varIntBytes(packet.transactionId));
    match packet.payload
    case None =>
      buf.WriteBytes(p.presentBytes(false));
    case Some(a) =>
      buf.WriteBytes(p.presentBytes(true));
      WriteAnswer(p, a, buf);
  }
}
