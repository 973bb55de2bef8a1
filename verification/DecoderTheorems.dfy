/** Field by field, what decoding makes of a packet. */
module DecoderTheorems {
  import opened Wrappers
  import opened Framing
  import opened Text
  import opened Timestamp
  import opened Model
  import opened Decoder

  /** The packet can be marshalled and carries a readable payload for a port. */
  predicate OnPort(codec: Codec, packet: MeshPacket, port: int32) {
    packet.variant.Decoded? && packet.variant.portnum == port && codec.marshalPacket(packet).Success?
  }

  predicate InRange(latitude: int, longitude: int) {
    -900_000_000 <= latitude <= 900_000_000 && -1_800_000_000 <= longitude <= 1_800_000_000
  }

  /** When the packet was received: by the radio if it says so, else by the bridge. */
  predicate IsPacketTime(packet: MeshPacket, receivedAt: Instant, t: Instant) {
    if packet.rxTime.Some? then t == UNIX_EPOCH + packet.rxTime.value * NANOS else t == receivedAt
  }

  /** Absent exactly for zero. */
  predicate OptionalValue(v: int, o: Option<int>) {
    if v == 0 then o.None? else o == Some(v)
  }

  /** A port 72 packet whose payload can be read has a position exactly when it carries a PLI inside the
      ranges, and then every field of the position is the PLI's, the contact's or the packet's. */
  lemma LegacyFields(codec: Codec, packet: MeshPacket, receivedAt: Instant, decodePositionApp: bool, m: TakPacket)
    requires OnPort(codec, packet, ATAK_PLUGIN) && codec.unmarshalTak(packet.variant.payload) == Success(m)
    ensures var (record, position) := Decode(codec, packet, receivedAt, decodePositionApp);
            && (position.Some? <==> m.pli.Some? && InRange(m.pli.value.latitudeI, m.pli.value.longitudeI))
            && (m.pli.None? <==> record.parseStatus == "tak_non_position")
            && (record.parseStatus == "malformed" <==>
                  m.pli.Some? && !InRange(m.pli.value.latitudeI, m.pli.value.longitudeI))
            && (record.parseStatus == "malformed" ==>
                  record.parseError == if -900_000_000 <= m.pli.value.latitudeI <= 900_000_000
                                       then "invalid longitude " + Degrees(m.pli.value.longitudeI)
                                       else "invalid latitude " + Degrees(m.pli.value.latitudeI))
            && (position.Some? ==>
                  var p, pli := position.value, m.pli.value;
                  && p.latitude == pli.latitudeI && p.longitude == pli.longitudeI
                  && OptionalValue(pli.altitude, p.altitude) && OptionalValue(pli.speed, p.speed)
                  && OptionalValue(pli.course, p.course)
                  && p.locationSource == "" && p.precisionBits == 0
                  && p.sourceNode == packet.from && p.meshPacketID == packet.id && p.sourcePort == 72
                  && IsPacketTime(packet, receivedAt, p.sourceTime) && p.receivedAt == receivedAt
                  && (record.parseStatus == "tak_callsign_undecodable" <==>
                        m.contact.Some? && Unreadable(codec, m.contact.value, m.isCompressed))
                  && ShowsContact(codec, m, packet.from, p.callsign, p.deviceCallsign))
  {
    hide TrimSpace, Hex, Degrees, NodeID;
  }

  /** Compressed callsigns cannot be read, unless there are none, nor can bytes that are not UTF-8. */
  predicate Unreadable(codec: Codec, contact: Contact, compressed: bool) {
    if compressed then |contact.callsign| > 0 || |contact.deviceCallsign| > 0
    else codec.utf8(contact.callsign).None? || codec.utf8(contact.deviceCallsign).None?
  }

  /** The trimmed callsigns of a readable contact; a missing or blank callsign is the node's identifier. */
  predicate ShowsContact(codec: Codec, m: TakPacket, from: uint32, callsign: string, deviceCallsign: string) {
    if m.contact.None? || m.isCompressed || Unreadable(codec, m.contact.value, false) then
      callsign == NodeID(from) && deviceCallsign == ""
    else
      var c, d := TrimSpace(codec.utf8(m.contact.value.callsign).value), TrimSpace(codec.utf8(m.contact.value.deviceCallsign).value);
      callsign == (if c == "" then NodeID(from) else c) && deviceCallsign == d
  }

  /** A port 3 packet whose payload can be read has a position exactly when it is decoded at all and has a fix
      inside the ranges, and then every field of the position is the payload's or the packet's. */
  lemma AppFields(codec: Codec, packet: MeshPacket, receivedAt: Instant, decodePositionApp: bool, m: MeshPosition)
    requires OnPort(codec, packet, POSITION_APP) && codec.unmarshalPosition(packet.variant.payload) == Success(m)
    ensures var (record, position) := Decode(codec, packet, receivedAt, decodePositionApp);
            var noFix := m.latitudeI == 0 && m.longitudeI == 0;
            && (position.Some? <==> decodePositionApp && !noFix && InRange(m.latitudeI, m.longitudeI))
            && (record.parseStatus == "position_app_disabled" <==> !decodePositionApp)
            && (record.parseStatus == "position_no_fix" <==> decodePositionApp && noFix)
            && (record.parseStatus == "malformed" <==> decodePositionApp && !InRange(m.latitudeI, m.longitudeI))
            && (record.parseStatus == "malformed" ==>
                  record.parseError == if -900_000_000 <= m.latitudeI <= 900_000_000
                                       then "invalid longitude " + Degrees(m.longitudeI)
                                       else "invalid latitude " + Degrees(m.latitudeI))
            && (position.Some? ==>
                  var p := position.value;
                  && p.latitude == m.latitudeI && p.longitude == m.longitudeI
                  && (m.altitude.None? <==> p.altitude.None?)
                  && (m.altitude.Some? ==> p.altitude == Some(m.altitude.value))
                  && p.speed == None && p.course == None
                  && p.locationSource == m.locationSource && p.precisionBits == m.precisionBits
                  && p.sourceNode == packet.from && p.meshPacketID == packet.id && p.sourcePort == 3
                  && (if m.time != 0 then p.sourceTime == UNIX_EPOCH + m.time * NANOS
                      else IsPacketTime(packet, receivedAt, p.sourceTime))
                  && p.receivedAt == receivedAt
                  && p.callsign == NodeID(packet.from) && p.deviceCallsign == "")
  {
    hide Hex, Degrees, NodeID;
  }

  /** A payload that cannot be read makes its packet malformed, with the library's error. */
  lemma UnreadablePayload(codec: Codec, packet: MeshPacket, receivedAt: Instant, decodePositionApp: bool, e: string)
    requires (OnPort(codec, packet, ATAK_PLUGIN) && codec.unmarshalTak(packet.variant.payload) == Failure(e))
          || (OnPort(codec, packet, POSITION_APP) && codec.unmarshalPosition(packet.variant.payload) == Failure(e)
              && decodePositionApp)
    ensures var (record, position) := Decode(codec, packet, receivedAt, decodePositionApp);
            && position.None? && record.parseStatus == "malformed"
            && record.parseError == (if packet.variant.portnum == 72 then "decode legacy TAK packet: " + e
                                     else "decode Meshtastic position: " + e)
  {
    hide Hex, Degrees, NodeID, TrimSpace;
  }

  /** Every other packet has no position, and a status that names why. */
  lemma OtherStatuses(codec: Codec, packet: MeshPacket, receivedAt: Instant, decodePositionApp: bool)
    ensures var (record, position) := Decode(codec, packet, receivedAt, decodePositionApp);
            var marshals := codec.marshalPacket(packet).Success?;
            && (record.parseStatus == "invalid_packet" <==> !marshals)
            && (!marshals ==> record.parseError == codec.marshalPacket(packet).error && position.None?)
            && (record.parseStatus == "encrypted" <==> marshals && !packet.variant.Decoded?)
            && (record.parseStatus == "unsupported_atak_v2" <==> OnPort(codec, packet, 78))
            && (record.parseStatus == "unsupported_atak_forwarder" <==> OnPort(codec, packet, 257))
            && (record.parseStatus == "non_tak" <==>
                  marshals && packet.variant.Decoded? && packet.variant.portnum !in [3, 72, 78, 257])
            && (position.Some? ==> OnPort(codec, packet, 3) || OnPort(codec, packet, 72))
  {
    hide Hex, Degrees, NodeID, TrimSpace, Callsigns, Record;
    ReportStatuses(codec, packet, receivedAt, decodePositionApp);
    hide AppReport, LegacyReport;
    RecordStatus(codec, packet, receivedAt, decodePositionApp);
  }

  lemma ReportStatuses(codec: Codec, packet: MeshPacket, receivedAt: Instant, decodePositionApp: bool)
    ensures forall report :: ReportVerdict(report).status
              in ["position", "tak_callsign_undecodable", "position_no_fix", "tak_non_position", "malformed"]
  {
  }

  lemma RecordStatus(codec: Codec, packet: MeshPacket, receivedAt: Instant, decodePositionApp: bool)
    ensures var verdict := Judge(codec, packet, receivedAt, decodePositionApp);
            var (record, position) := Decode(codec, packet, receivedAt, decodePositionApp);
            record.parseStatus == verdict.status && record.parseError == verdict.error && position == verdict.position
  {
    hide Judge;
  }

  /** The record carries the packet's own fields and bytes. */
  lemma RecordFields(codec: Codec, packet: MeshPacket, receivedAt: Instant, decodePositionApp: bool)
    ensures var record := Decode(codec, packet, receivedAt, decodePositionApp).0;
            && record.from == packet.from && record.to == packet.to && record.meshPacketID == packet.id
            && record.channel == packet.channel && record.receivedAt == receivedAt
            && (packet.rxTime.None? <==> record.radioRxTime.None?)
            && (packet.rxTime.Some? ==> record.radioRxTime == Some(UNIX_EPOCH + packet.rxTime.value * NANOS))
            && (codec.marshalPacket(packet).Success? ==>
                  && record.rawPacket == codec.marshalPacket(packet).value
                  && (record.encrypted <==> !packet.variant.Decoded?)
                  && (packet.variant.Decoded? ==>
                        record.port == packet.variant.portnum && record.rawPayload == packet.variant.payload)
                  && (packet.variant.Encrypted? ==> record.rawPayload == packet.variant.ciphertext))
  {
    hide Judge;
  }


  /** Zero seconds of the radio's clock are the beginning of 1970. */
  lemma UnixTimeStarts()
    ensures FormatTime(UnixTime(0)) == "1970-01-01T00:00:00Z"
  {
    EpochText();
    hide FormatTime;
  }
}
