/** Packet decoding (internal/tak/decoder.go), starting from unmarshalled messages.

    Protobuf and UTF-8 are library code: `Codec` stands for them, and every theorem holds for any codec. */
module Decoder {
  import opened Wrappers
  import opened Framing
  import opened Text
  import opened Timestamp
  import opened Model

  type int32 = n: int | -0x8000_0000 <= n < 0x8000_0000

  /** meshtastic.Position; `locationSource` is the enum value's name. */
  datatype MeshPosition = MeshPosition(
    latitudeI: int32,
    longitudeI: int32,
    altitude: Option<int32>,
    time: uint32,
    locationSource: string,
    precisionBits: uint32)

  datatype Contact = Contact(callsign: bytes, deviceCallsign: bytes)

  datatype Pli = Pli(latitudeI: int32, longitudeI: int32, altitude: int32, speed: uint32, course: uint32)

  datatype TakPacket = TakPacket(isCompressed: bool, contact: Option<Contact>, pli: Option<Pli>)

  datatype User = User(shortName: string, longName: string)

  datatype Variant = Decoded(portnum: int32, payload: bytes) | Encrypted(ciphertext: bytes) | Empty

  /** meshtastic.MeshPacket without the radio metrics. */
  datatype MeshPacket = MeshPacket(
    from: uint32,
    to: uint32,
    id: uint32,
    channel: uint32,
    rxTime: Option<uint32>,
    variant: Variant)

  /** The protobuf and UTF-8 libraries; a Failure carries the error's text. */
  datatype Codec = Codec(
    marshalPacket: MeshPacket -> Result<bytes, string>,
    unmarshalPosition: bytes -> Result<MeshPosition, string>,
    unmarshalTak: bytes -> Result<TakPacket, string>,
    unmarshalUser: bytes -> Result<User, string>,
    utf8: bytes -> Option<string>)

  const POSITION_APP: int32 := 3
  const NODEINFO_APP: int32 := 4
  const ATAK_PLUGIN: int32 := 72
  const ATAK_PLUGIN_V2: int32 := 78
  const ATAK_FORWARDER: int32 := 257

  /** 1970-01-01T00:00:00Z. */
  const UNIX_EPOCH: int := 719_528 * DAY_SECONDS * NANOS

  /** The zero time.Time, 0001-01-01T00:00:00Z. */
  const ZERO_TIME: int := 366 * DAY_SECONDS * NANOS

  /** `time.Unix(seconds, 0).UTC()`. */
  function UnixTime(seconds: uint32): Instant {
    UNIX_EPOCH + seconds * NANOS
  }

  // ------------------------------------------------------------------ what a packet reports

  /** The time a packet carries: when the radio received it if it says so, else when the bridge did. */
  function PacketTime(packet: MeshPacket, receivedAt: Instant): Instant {
    match packet.rxTime
    case Some(seconds) => UnixTime(seconds)
    case None => receivedAt
  }

  function RangeError(latitude: int, longitude: int): Option<string> {
    if !(-LATITUDE_LIMIT <= latitude <= LATITUDE_LIMIT) then Some("invalid latitude " + Degrees(latitude))
    else if !(-LONGITUDE_LIMIT <= longitude <= LONGITUDE_LIMIT) then Some("invalid longitude " + Degrees(longitude))
    else None
  }

  datatype Report =
    | Located(position: Position, undecodable: bool)  // a position; its callsign bytes may be unreadable
    | NoFix
    | NotPosition
    | Malformed(error: string)

  /** The port 3 report of a payload. */
  function AppReport(codec: Codec, packet: MeshPacket, receivedAt: Instant, payload: bytes): Report {
    match codec.unmarshalPosition(payload)
    case Failure(e) => Malformed("decode Meshtastic position: " + e)
    case Success(m) =>
      if m.latitudeI == 0 && m.longitudeI == 0 then NoFix
      else if !OnEarth(m.latitudeI, m.longitudeI) then Malformed(RangeError(m.latitudeI, m.longitudeI).Extract())
      else Located(
        Position(0, packet.from, packet.id, POSITION_APP, NodeID(packet.from), "", m.latitudeI, m.longitudeI,
                 m.altitude, None, None, m.locationSource, m.precisionBits,
                 if m.time != 0 then UnixTime(m.time) else PacketTime(packet, receivedAt), receivedAt),
        false)
  }

  /** The contact's callsigns, or None when they are compressed or not UTF-8. */
  function Callsigns(codec: Codec, contact: Contact, compressed: bool): Option<(string, string)> {
    if compressed then (if contact == Contact([], []) then Some(("", "")) else None)
    else match (codec.utf8(contact.callsign), codec.utf8(contact.deviceCallsign))
      case (Some(c), Some(d)) => Some((TrimSpace(c), TrimSpace(d)))
      case _ => None
  }

  function NonZero(v: int): Option<int> {
    if v == 0 then None else Some(v)
  }

  /** The port 72 report of a payload. */
  function LegacyReport(codec: Codec, packet: MeshPacket, receivedAt: Instant, payload: bytes): Report {
    match codec.unmarshalTak(payload)
    case Failure(e) => Malformed("decode legacy TAK packet: " + e)
    case Success(m) =>
      if m.pli.None? then NotPosition
      else
        var pli := m.pli.value;
        if !OnEarth(pli.latitudeI, pli.longitudeI) then Malformed(RangeError(pli.latitudeI, pli.longitudeI).Extract())
        else
          var read := if m.contact.None? then Some(("", "")) else Callsigns(codec, m.contact.value, m.isCompressed);
          var names := if read.None? then ("", "") else read.value;
          Located(
            Position(0, packet.from, packet.id, ATAK_PLUGIN, if names.0 == "" then NodeID(packet.from) else names.0,
                     names.1, pli.latitudeI, pli.longitudeI, NonZero(pli.altitude), NonZero(pli.speed),
                     NonZero(pli.course), "", 0, PacketTime(packet, receivedAt), receivedAt),
            read.None?)
  }

  /** What happens to a packet: its parse status, its parse error, and its position if it has one. */
  datatype Verdict = Verdict(status: string, error: string, position: Option<Position>)

  function Judge(codec: Codec, packet: MeshPacket, receivedAt: Instant, decodePositionApp: bool): Verdict {
    if codec.marshalPacket(packet).Failure? then Verdict("invalid_packet", codec.marshalPacket(packet).error, None)
    else match packet.variant
      case Encrypted(_) => Verdict("encrypted", "", None)
      case Empty => Verdict("encrypted", "", None)
      case Decoded(port, payload) =>
        if port == POSITION_APP && !decodePositionApp then Verdict("position_app_disabled", "", None)
        else if port == POSITION_APP then ReportVerdict(AppReport(codec, packet, receivedAt, payload))
        else if port == ATAK_PLUGIN then ReportVerdict(LegacyReport(codec, packet, receivedAt, payload))
        else if port == ATAK_PLUGIN_V2 then Verdict("unsupported_atak_v2", "", None)
        else if port == ATAK_FORWARDER then Verdict("unsupported_atak_forwarder", "", None)
        else Verdict("non_tak", "", None)
  }

  function ReportVerdict(report: Report): Verdict {
    match report
    case Located(p, undecodable) => Verdict(if undecodable then "tak_callsign_undecodable" else "position", "", Some(p))
    case NoFix => Verdict("position_no_fix", "", None)
    case NotPosition => Verdict("tak_non_position", "", None)
    case Malformed(e) => Verdict("malformed", e, None)
  }

  /** The archived record: the packet's own fields, its bytes, and its verdict. */
  function Record(codec: Codec, packet: MeshPacket, receivedAt: Instant, verdict: Verdict): Packet {
    var raw := codec.marshalPacket(packet);
    Packet(packet.from, packet.to, packet.id, packet.channel,
           if raw.Success? && packet.variant.Decoded? then packet.variant.portnum else 0,
           raw.Success? && !packet.variant.Decoded?,
           receivedAt,
           if packet.rxTime.Some? then Some(UnixTime(packet.rxTime.value)) else None,
           if raw.Success? then raw.value else [],
           if raw.Failure? then []
           else match packet.variant {
             case Decoded(_, payload) => payload
             case Encrypted(ciphertext) => ciphertext
             case Empty => []
           },
           verdict.status, verdict.error)
  }

  function Decode(codec: Codec, packet: MeshPacket, receivedAt: Instant, decodePositionApp: bool)
    : (Packet, Option<Position>)
  {
    var verdict := Judge(codec, packet, receivedAt, decodePositionApp);
    (Record(codec, packet, receivedAt, verdict), verdict.position)
  }

  // ------------------------------------------------------------------ the program

  function TimeFromPacket(packet: Packet): Instant {
    if packet.radioRxTime.Some? then packet.radioRxTime.value else packet.receivedAt
  }

  function SourceTime(packet: Packet): Instant {
    if TimeFromPacket(packet) == ZERO_TIME then packet.receivedAt else TimeFromPacket(packet)
  }

  method NewPosition(packet: Packet, latitude: int, longitude: int) returns (r: Result<Position, string>)
    ensures r == match RangeError(latitude, longitude)
                 case Some(e) => Failure(e)
                 case None => Success(Position(0, packet.from, packet.meshPacketID, packet.port, NodeID(packet.from), "",
                                               latitude, longitude, None, None, None, "", 0,
                                               SourceTime(packet), packet.receivedAt))
  {
    hide NodeID, Degrees;
    if latitude < -LATITUDE_LIMIT || latitude > LATITUDE_LIMIT {
      return Failure("invalid latitude " + Degrees(latitude));
    }
    if longitude < -LONGITUDE_LIMIT || longitude > LONGITUDE_LIMIT {
      return Failure("invalid longitude " + Degrees(longitude));
    }
    var sourceTime := packet.receivedAt;
    var packetTime := TimeFromPacket(packet);
    if packetTime != ZERO_TIME {
      sourceTime := packetTime;
    }
    return Success(Position(0, packet.from, packet.meshPacketID, packet.port, NodeID(packet.from), "",
                            latitude, longitude, None, None, None, "", 0, sourceTime, packet.receivedAt));
  }

  /** What the record says about its packet by the time the payload is decoded. No radio time is the zero
      time, so the zero test of `newPosition` never changes the outcome. */
  predicate Describes(record: Packet, packet: MeshPacket, receivedAt: Instant, port: int32) {
    && record.from == packet.from && record.meshPacketID == packet.id && record.port == port
    && record.receivedAt == receivedAt && SourceTime(record) == PacketTime(packet, receivedAt)
  }

  method DecodePositionApp(codec: Codec, record: Packet, payload: bytes, ghost packet: MeshPacket)
    returns (r: Result<Option<Position>, string>)
    requires Describes(record, packet, record.receivedAt, POSITION_APP)
    ensures AppReport(codec, packet, record.receivedAt, payload)
         == match r
            case Success(Some(p)) => Located(p, false)
            case Success(None) => NoFix
            case Failure(e) => Malformed(e)
  {
    hide NodeID, Degrees;
    var unmarshalled := codec.unmarshalPosition(payload);
    if unmarshalled.Failure? {
      return Failure("decode Meshtastic position: " + unmarshalled.error);
    }
    var m := unmarshalled.value;
    if m.latitudeI == 0 && m.longitudeI == 0 {
      return Success(None);
    }
    var created := NewPosition(record, m.latitudeI, m.longitudeI);
    if created.Failure? {
      return Failure(created.error);
    }
    var position := created.value;
    if m.altitude.Some? {
      position := position.(altitude := Some(m.altitude.value));
    }
    if m.time != 0 {
      position := position.(sourceTime := UnixTime(m.time));
    }
    position := position.(locationSource := m.locationSource);
    position := position.(precisionBits := m.precisionBits);
    return Success(Some(position));
  }

  method DecodeCallsigns(codec: Codec, contact: Option<Contact>, compressed: bool)
    returns (callsign: string, deviceCallsign: string, undecodable: bool)
    ensures var read := if contact.None? then Some(("", "")) else Callsigns(codec, contact.value, compressed);
            && undecodable == read.None?
            && (callsign, deviceCallsign) == if read.None? then ("", "") else read.value
  {
    if contact.None? {
      return "", "", false;
    }
    var c := contact.value;
    if compressed {
      return "", "", |c.callsign| > 0 || |c.deviceCallsign| > 0;
    }
    var callsignText, deviceText := codec.utf8(c.callsign), codec.utf8(c.deviceCallsign);
    if callsignText.None? || deviceText.None? {
      return "", "", true;
    }
    return TrimSpace(callsignText.value), TrimSpace(deviceText.value), false;
  }

  datatype LegacyError = ErrNotPosition | OtherError(message: string)

  method DecodeLegacy(codec: Codec, record: Packet, payload: bytes, ghost packet: MeshPacket)
    returns (r: Result<Position, LegacyError>, undecodable: bool)
    requires Describes(record, packet, record.receivedAt, ATAK_PLUGIN)
    ensures LegacyReport(codec, packet, record.receivedAt, payload)
         == match r
            case Success(p) => Located(p, undecodable)
            case Failure(ErrNotPosition) => NotPosition
            case Failure(OtherError(e)) => Malformed(e)
  {
    hide NodeID, Degrees, TrimSpace, Callsigns;
    undecodable := false;
    var unmarshalled := codec.unmarshalTak(payload);
    if unmarshalled.Failure? {
      return Failure(OtherError("decode legacy TAK packet: " + unmarshalled.error)), false;
    }
    var m := unmarshalled.value;
    if m.pli.None? {
      return Failure(ErrNotPosition), false;
    }
    var pli := m.pli.value;
    var created := NewPosition(record, pli.latitudeI, pli.longitudeI);
    if created.Failure? {
      return Failure(OtherError(created.error)), false;
    }
    var position := created.value;
    var callsign, deviceCallsign;
    callsign, deviceCallsign, undecodable := DecodeCallsigns(codec, m.contact, m.isCompressed);
    position := position.(callsign := callsign);
    position := position.(deviceCallsign := deviceCallsign);
    if position.callsign == "" {
      position := position.(callsign := NodeID(record.from));
    }
    if pli.altitude != 0 {
      position := position.(altitude := Some(pli.altitude));
    }
    if pli.speed != 0 {
      position := position.(speed := Some(pli.speed));
    }
    if pli.course != 0 {
      position := position.(course := Some(pli.course));
    }
    return Success(position), undecodable;
  }

  method DecodeWithOptions(codec: Codec, packet: MeshPacket, receivedAt: Instant, decodePositionApp: bool)
    returns (record: Packet, position: Option<Position>)
    ensures (record, position) == Decode(codec, packet, receivedAt, decodePositionApp)
  {
    hide AppReport, LegacyReport;
    var raw := codec.marshalPacket(packet);
    record := Packet(packet.from, packet.to, packet.id, packet.channel, 0, false, receivedAt, None,
                     if raw.Success? then raw.value else [], [], "", "");
    if packet.rxTime.Some? {
      record := record.(radioRxTime := Some(UnixTime(packet.rxTime.value)));
    }
    if raw.Failure? {
      record := record.(parseStatus := "invalid_packet", parseError := raw.error);
      return record, None;
    }
    if !packet.variant.Decoded? {
      record := record.(encrypted := true);
      record := record.(rawPayload := if packet.variant.Encrypted? then packet.variant.ciphertext else []);
      record := record.(parseStatus := "encrypted");
      return record, None;
    }
    var port, payload := packet.variant.portnum, packet.variant.payload;
    record := record.(port := port, rawPayload := payload);
    if port == POSITION_APP {
      if !decodePositionApp {
        record := record.(parseStatus := "position_app_disabled");
      } else {
        var r := DecodePositionApp(codec, record, payload, packet);
        match r
        case Failure(e) => record := record.(parseStatus := "malformed", parseError := e);
        case Success(None) => record := record.(parseStatus := "position_no_fix");
        case Success(Some(p)) =>
          record := record.(parseStatus := "position");
          return record, Some(p);
      }
    } else if port == ATAK_PLUGIN {
      var r, undecodable := DecodeLegacy(codec, record, payload, packet);
      match r
      case Success(p) =>
        record := record.(parseStatus := if undecodable then "tak_callsign_undecodable" else "position");
        return record, Some(p);
      case Failure(ErrNotPosition) => record := record.(parseStatus := "tak_non_position");
      case Failure(OtherError(e)) => record := record.(parseStatus := "malformed", parseError := e);
    } else if port == ATAK_PLUGIN_V2 {
      record := record.(parseStatus := "unsupported_atak_v2");
    } else if port == ATAK_FORWARDER {
      record := record.(parseStatus := "unsupported_atak_forwarder");
    } else {
      record := record.(parseStatus := "non_tak");
    }
    return record, None;
  }

  // ------------------------------------------------------------------ what every decoded position is

  /** A decoded position names its node and port, has a callsign, lies on Earth, and comes with one of two
      statuses, which no packet without a position has. */
  lemma DecodedPosition(codec: Codec, packet: MeshPacket, receivedAt: Instant, decodePositionApp: bool)
    ensures var (record, position) := Decode(codec, packet, receivedAt, decodePositionApp);
            && (position.Some? <==> record.parseStatus in ["position", "tak_callsign_undecodable"])
            && (position.Some? ==>
                  var p := position.value;
                  && p.callsign != "" && OnEarth(p.latitude, p.longitude)
                  && p.sourceNode == packet.from && p.meshPacketID == packet.id
                  && p.sourcePort == record.port && p.sourcePort in [POSITION_APP, ATAK_PLUGIN]
                  && !record.encrypted && record.parseError == "")
            && (record.parseError != "" ==> record.parseStatus in ["invalid_packet", "malformed"])
  {
    hide TrimSpace, Degrees, Hex;
  }

  /** The node, coordinates and fix time a port 3 packet reports. */
  predicate ReportsFix(codec: Codec, packet: MeshPacket, latitude: int, longitude: int, time: uint32) {
    && packet.variant.Decoded? && packet.variant.portnum == POSITION_APP
    && codec.marshalPacket(packet).Success?
    && var m := codec.unmarshalPosition(packet.variant.payload);
       m.Success? && m.value.latitudeI == latitude && m.value.longitudeI == longitude && m.value.time == time
  }

  /** A port 3 packet yields a position exactly when it has a fix inside the ranges; with a fix time, the
      position's key depends on nothing else, least of all on when the packet was received. */
  lemma FixDecides(codec: Codec, packet: MeshPacket, receivedAt: Instant, latitude: int, longitude: int, time: uint32)
    requires ReportsFix(codec, packet, latitude, longitude, time)
    ensures var position := Decode(codec, packet, receivedAt, true).1;
            && (position.Some? <==> !(latitude == 0 && longitude == 0) && OnEarth(latitude, longitude))
            && (position.Some? && time != 0 ==>
                  PositionKey(position.value) == KeyText(packet.from, latitude, longitude, FormatTime(UnixTime(time))))
  {
    hide FormatTime, KeyText, Degrees, NodeID;
  }
}
