/**
 * `NetworkRegistry`: the codecs registered for login query payloads, by
 * identifier, and for query answers, by transaction id. The Java class keeps
 * both tables in static fields; here they are the fields of one registry.
 */
module NetworkRegistries {
  import opened Java
  import opened Codecs
  import opened LoginPayloads

  class NetworkRegistry {
    var queryPayloads: map<string, StreamCodec<QueryPayload>>
    var queryAnswerPayloads: map<int, StreamCodec<AnswerPayload>>

    constructor ()
      ensures queryPayloads == map[] && queryAnswerPayloads == map[]
    {
      queryPayloads := map[];
      queryAnswerPayloads := map[];
    }

    /** `getQueryPayloadCodec`: empty when nothing is registered under `identifier`. */
    function GetQueryPayloadCodec(identifier: string): Option<StreamCodec<QueryPayload>>
      reads this
    {
      if identifier in queryPayloads then Some(queryPayloads[identifier]) else None
    }

    /** `getQueryAnswerPayloadCodec`: empty when nothing is registered for `transactionId`. */
    function GetQueryAnswerPayloadCodec(transactionId: int): Option<StreamCodec<AnswerPayload>>
      reads this
    {
      if transactionId in queryAnswerPayloads then Some(queryAnswerPayloads[transactionId]) else None
    }

    /** `registerQueryPayload`: `codec` replaces whatever was registered under `identifier`. */
    method RegisterQueryPayload(identifier: string, codec: StreamCodec<QueryPayload>)
      modifies this
      ensures GetQueryPayloadCodec(identifier) == Some(codec)
      ensures forall other :: other != identifier ==>
        GetQueryPayloadCodec(other) == old(GetQueryPayloadCodec(other))
      ensures queryPayloads == old(queryPayloads)[identifier := codec]
      ensures queryAnswerPayloads == old(queryAnswerPayloads)
    {
      queryPayloads := queryPayloads[identifier := codec];
    }

    /** `unregisterQueryPayload`. */
    method UnregisterQueryPayload(identifier: string)
      modifies this
      ensures GetQueryPayloadCodec(identifier) == None
      ensures forall other :: other != identifier ==>
        GetQueryPayloadCodec(other) == old(GetQueryPayloadCodec(other))
      ensures queryPayloads == old(queryPayloads) - {identifier}
      ensures queryAnswerPayloads == old(queryAnswerPayloads)
    {
      queryPayloads := queryPayloads - {identifier};
    }

    /** `registerQueryAnswerPayload`: `codec` replaces whatever was registered for `transactionId`. */
    method RegisterQueryAnswerPayload(transactionId: int, codec: StreamCodec<AnswerPayload>)
      modifies this
      ensures GetQueryAnswerPayloadCodec(transactionId) == Some(codec)
      ensures forall other :: other != transactionId ==>
        GetQueryAnswerPayloadCodec(other) == old(GetQueryAnswerPayloadCodec(other))
      ensures queryAnswerPayloads == old(queryAnswerPayloads)[transactionId := codec]
      ensures queryPayloads == old(queryPayloads)
    {
      queryAnswerPayloads := queryAnswerPayloads[transactionId := codec];
    }

    /** `unregisterQueryAnswerPayload`. */
    method UnregisterQueryAnswerPayload(transactionId: int)
      modifies this
      ensures GetQueryAnswerPayloadCodec(transactionId) == None
      ensures forall other :: other != transactionId ==>
        GetQueryAnswerPayloadCodec(other) == old(GetQueryAnswerPayloadCodec(other))
      ensures queryAnswerPayloads == old(queryAnswerPayloads) - {transactionId}
      ensures queryPayloads == old(queryPayloads)
    {
      queryAnswerPayloads := queryAnswerPayloads - {transactionId};
    }
  }
}

/**
 * `ConnectionProtocol`: per protocol phase and direction, the table from
 * packet id to the packet registered under it. A packet is registered with
 * one mapping per range of game versions; the id used is that of the first
 * mapping whose range holds for the running game.
 */
module ConnectionProtocols {
  import opened Java
  import opened Strings
  import opened Versions

  datatype PacketFlow = Clientbound | Serverbound

  datatype Protocol = Handshaking | Status | Login | Configuration | Play

  /** `ConnectionProtocol.id()`. */
  function ProtocolId(protocol: Protocol): string
  {
    match protocol
    case Handshaking => "handshake"
    case Status => "status"
    case Login => "login"
    case Configuration => "configuration"
    case Play => "play"
  }

  /** The packet id to use from game version `since` up to `until`; UNKNOWN leaves that end open. */
  datatype PacketMapping = PacketMapping(id: int, since: MinecraftVersion, until: MinecraftVersion)

  /** `map(id, since, until)`. */
  function Map(id: int, since: MinecraftVersion, until: MinecraftVersion): PacketMapping
  {
    PacketMapping(id, since, until)
  }

  /** `map(id, since)`: no upper end. */
  function MapSince(id: int, since: MinecraftVersion): PacketMapping
  {
    PacketMapping(id, since, UNKNOWN)
  }

  /** `map(id)`: neither end. */
  function MapAny(id: int): PacketMapping
  {
    PacketMapping(id, UNKNOWN, UNKNOWN)
  }

  lemma ShortMapsLeaveEndsOpen(id: int, since: MinecraftVersion)
    ensures MapSince(id, since) == Map(id, since, UNKNOWN)
    ensures MapAny(id) == Map(id, UNKNOWN, UNKNOWN)
  {
  }

  /**
   * `Constraint.range(since, until).result()`: whether the running game lies
   * in the range. It depends on the environment, outside this model.
   */
  type Resolver = (MinecraftVersion, MinecraftVersion) -> bool

  /** `PacketMapping.resolve`. */
  function Resolve(resolver: Resolver, m: PacketMapping): Option<int>
  {
    if resolver(m.since, m.until) then Some(m.id) else None
  }

  /** The first resolved id among `mappings`, in argument order. */
  function FirstResolved(resolver: Resolver, mappings: seq<PacketMapping>): Option<int>
  {
    if |mappings| == 0 then None
    else if Resolve(resolver, mappings[0]).Some? then Resolve(resolver, mappings[0])
    else FirstResolved(resolver, mappings[1..])
  }

  predicate Resolves(resolver: Resolver, m: PacketMapping)
  {
    resolver(m.since, m.until)
  }

  /** The index of the first mapping that resolves, if any does. */
  function FirstResolving(resolver: Resolver, mappings: seq<PacketMapping>): nat
  {
    if |mappings| == 0 || Resolves(resolver, mappings[0]) then 0
    else 1 + FirstResolving(resolver, mappings[1..])
  }

  /** Some id is found exactly when some mapping resolves, and it is that of the first one that does. */
  lemma {:induction false} FirstResolvedIsFirst(resolver: Resolver, mappings: seq<PacketMapping>)
    ensures FirstResolved(resolver, mappings).Some?
        <==> exists i :: 0 <= i < |mappings| && Resolves(resolver, mappings[i])
    ensures var i := FirstResolving(resolver, mappings);
      FirstResolved(resolver, mappings).Some? ==>
        i < |mappings| && Resolves(resolver, mappings[i])
        && FirstResolved(resolver, mappings) == Some(mappings[i].id)
        && forall j :: 0 <= j < i ==> !Resolves(resolver, mappings[j])
  {
    if |mappings| > 0 && !Resolves(resolver, mappings[0]) {
      var tail := mappings[1..];
      FirstResolvedIsFirst(resolver, tail);
      if exists i :: 0 <= i < |mappings| && Resolves(resolver, mappings[i]) {
        var i :| 0 <= i < |mappings| && Resolves(resolver, mappings[i]);
        assert i > 0 && tail[i - 1] == mappings[i];
      }
      if FirstResolved(resolver, tail).Some? {
        var k := FirstResolving(resolver, tail);
        assert tail[k] == mappings[k + 1];
        forall j | 0 <= j < k + 1
          ensures !Resolves(resolver, mappings[j])
        {
          if j > 0 {
            assert mappings[j] == tail[j - 1];
          }
        }
      }
    }
  }

  /** `ProtocolInfo`: the packet class, its identifier, and (by name) its codec. */
  datatype ProtocolInfo = ProtocolInfo(clazz: string, identifier: string, codec: string)

  const AT_LEAST_ONE_MAPPING: string := "At least one mapping must be provided"
  const NO_PROTOCOL_INFO: string := "No protocol info found for id: "

  /** The table after registering `info` under the resolved id, if there is one. */
  function Put(table: map<int, ProtocolInfo>, id: Option<int>, info: ProtocolInfo): map<int, ProtocolInfo>
  {
    match id
    case None => table
    case Some(i) => table[i := info]
  }

  /** `PacketRegistry.codec` on a table: the stored codec, else an IllegalArgumentException. */
  function Lookup(table: map<int, ProtocolInfo>, id: int): (r: Except<string>)
    ensures r.Ok? <==> id in table
    ensures r.Ok? ==> r.value == table[id].codec
    ensures r.Throw? ==> r.error.IllegalArgument? && StartsWith(r.error.message, NO_PROTOCOL_INFO)
  {
    if id in table then Ok(table[id].codec) else Throw(IllegalArgument(NO_PROTOCOL_INFO))
  }

  class PacketRegistry {
    const direction: PacketFlow
    const protocol: Protocol
    var intToProtocolInfo: map<int, ProtocolInfo>

    constructor (direction: PacketFlow, protocol: Protocol)
      ensures this.direction == direction && this.protocol == protocol
      ensures intToProtocolInfo == map[]
    {
      this.direction := direction;
      this.protocol := protocol;
      intToProtocolInfo := map[];
    }

    /** `codec(id)`. */
    function Codec(id: int): Except<string>
      reads this
    {
      Lookup(intToProtocolInfo, id)
    }

    /**
     * `register`: no mappings is an error; otherwise the packet goes under the
     * first id that resolves, replacing what was there, or nowhere if none does.
     */
    method Register(resolver: Resolver, clazz: string, identifier: string, codec: string,
                    mappings: seq<PacketMapping>) returns (r: Except<()>)
      modifies this
      ensures |mappings| == 0 ==>
        r == Throw(IllegalArgument(AT_LEAST_ONE_MAPPING)) && intToProtocolInfo == old(intToProtocolInfo)
      ensures |mappings| > 0 ==>
        r == Ok(())
        && intToProtocolInfo == Put(old(intToProtocolInfo), FirstResolved(resolver, mappings),
                                    ProtocolInfo(clazz, identifier, codec))
      ensures |mappings| > 0 && FirstResolved(resolver, mappings).Some? ==>
        Codec(FirstResolved(resolver, mappings).value) == Ok(codec)
    {
      if |mappings| == 0 {
        return Throw(IllegalArgument(AT_LEAST_ONE_MAPPING));
      }
      var id := FirstResolved(resolver, mappings);
      if id.None? {
        return Ok(());
      }
      intToProtocolInfo := intToProtocolInfo[id.value := ProtocolInfo(clazz, identifier, codec)];
      r := Ok(());
    }
  }

  const CUSTOM_QUERY_ANSWER_INFO: ProtocolInfo := ProtocolInfo(
    "ServerboundCustomQueryAnswerPacket", "minecraft:custom_query_answer",
    "ServerboundCustomQueryAnswerPacket.STREAM_CODEC")
  const CUSTOM_QUERY_INFO: ProtocolInfo := ProtocolInfo(
    "ClientboundCustomQueryPacket", "minecraft:custom_query",
    "ClientboundCustomQueryPacket.STREAM_CODEC")
  const SERVERBOUND_PAYLOAD_INFO: ProtocolInfo := ProtocolInfo(
    "ServerboundCustomPayloadPacket", "minecraft:custom_payload",
    "ServerboundCustomPayloadPacket.STREAM_CODEC")
  const CLIENTBOUND_PAYLOAD_INFO: ProtocolInfo := ProtocolInfo(
    "ClientboundCustomPayloadPacket", "minecraft:custom_payload",
    "ClientboundCustomPayloadPacket.STREAM_CODEC")

  /** The one packet each phase and direction registers, with its mappings; none for handshake and status. */
  function Registration(protocol: Protocol, direction: PacketFlow): Option<(ProtocolInfo, seq<PacketMapping>)>
  {
    match (protocol, direction)
    case (Login, Serverbound) => Some((CUSTOM_QUERY_ANSWER_INFO, [MapAny(0x02)]))
    case (Login, Clientbound) => Some((CUSTOM_QUERY_INFO, [MapAny(0x04)]))
    case (Configuration, Serverbound) =>
      Some((SERVERBOUND_PAYLOAD_INFO, [MapSince(0x01, V20_2), MapSince(0x02, V20_5)]))
    case (Configuration, Clientbound) =>
      Some((CLIENTBOUND_PAYLOAD_INFO, [MapSince(0x00, V20_2), MapSince(0x01, V20_5)]))
    case (Play, Serverbound) =>
      Some((SERVERBOUND_PAYLOAD_INFO,
            [MapSince(0x17, V7_2), MapSince(0x09, V9), MapSince(0x0A, V12), MapSince(0x09, V12_1),
             MapSince(0x0A, V13), MapSince(0x0B, V14), MapSince(0x0A, V17), MapSince(0x0C, V19),
             MapSince(0x0D, V19_1), MapSince(0x0C, V19_3), MapSince(0x0D, V19_4), MapSince(0x0F, V20_2),
             MapSince(0x10, V20_3), MapSince(0x12, V20_5), MapSince(0x14, V21_2), MapSince(0x15, V21_6)]))
    case (Play, Clientbound) =>
      Some((CLIENTBOUND_PAYLOAD_INFO,
            [MapSince(0x3F, V7_2), MapSince(0x18, V9), MapSince(0x19, V13), MapSince(0x18, V14),
             MapSince(0x19, V15), MapSince(0x18, V16), MapSince(0x17, V16_2), MapSince(0x18, V17),
             MapSince(0x15, V19), MapSince(0x16, V19_1), MapSince(0x15, V19_3), MapSince(0x17, V19_4),
             MapSince(0x18, V20_2), MapSince(0x19, V20_5), MapSince(0x18, V21_5)]))
    case _ => None
  }

  /** The table a phase and direction end up with once its registration has run. */
  function Table(resolver: Resolver, protocol: Protocol, direction: PacketFlow): map<int, ProtocolInfo>
  {
    match Registration(protocol, direction)
    case None => map[]
    case Some((info, mappings)) => Put(map[], FirstResolved(resolver, mappings), info)
  }

  /** Handshake and status register nothing, so every codec lookup there fails. */
  lemma HandshakeAndStatusHaveNoCodecs(resolver: Resolver, protocol: Protocol, direction: PacketFlow, id: int)
    requires protocol == Handshaking || protocol == Status
    ensures Lookup(Table(resolver, protocol, direction), id).Throw?
  {
  }

  /** The login packets sit at fixed ids whenever the open range resolves, and nowhere else. */
  lemma LoginTables(resolver: Resolver)
    ensures Table(resolver, Login, Serverbound)
         == (if resolver(UNKNOWN, UNKNOWN) then map[0x02 := CUSTOM_QUERY_ANSWER_INFO] else map[])
    ensures Table(resolver, Login, Clientbound)
         == (if resolver(UNKNOWN, UNKNOWN) then map[0x04 := CUSTOM_QUERY_INFO] else map[])
  {
  }

  class ConnectionProtocol {
    const protocol: Protocol
    const clientbound: PacketRegistry
    const serverbound: PacketRegistry

    /** The enum constant: two empty registries, then the constant's own registrations. */
    constructor (protocol: Protocol, resolver: Resolver)
      ensures this.protocol == protocol && fresh(clientbound) && fresh(serverbound)
      ensures clientbound.direction == Clientbound && clientbound.protocol == protocol
      ensures serverbound.direction == Serverbound && serverbound.protocol == protocol
      ensures clientbound.intToProtocolInfo == Table(resolver, protocol, Clientbound)
      ensures serverbound.intToProtocolInfo == Table(resolver, protocol, Serverbound)
    {
      this.protocol := protocol;
      var c := new PacketRegistry(Clientbound, protocol);
      var s := new PacketRegistry(Serverbound, protocol);
      clientbound := c;
      serverbound := s;
      new;
      var ignored;
      match Registration(protocol, Serverbound) {
        case Some((info, mappings)) =>
          ignored := s.Register(resolver, info.clazz, info.identifier, info.codec, mappings);
        case None =>
      }
      match Registration(protocol, Clientbound) {
        case Some((info, mappings)) =>
          ignored := c.Register(resolver, info.clazz, info.identifier, info.codec, mappings);
        case None =>
      }
    }

    /** `getProtocolRegistry`: clientbound for CLIENTBOUND, serverbound otherwise. */
    function GetProtocolRegistry(direction: PacketFlow): PacketRegistry
    {
      if direction == Clientbound then clientbound else serverbound
    }

    /** `codec(direction, id)`. */
    function CodecFor(direction: PacketFlow, id: int): Except<string>
      reads GetProtocolRegistry(direction)
    {
      GetProtocolRegistry(direction).Codec(id)
    }
  }
}
