/** The tables of internal/store/store.go and each transaction as a function on them.

    Rows are never deleted, so the AUTOINCREMENT ids of a table are 1, 2, 3, ... and row `id`
    stands at index `id - 1`. Times are TEXT columns and are compared as text. */
module Database {
  import opened Wrappers
  import opened Text
  import opened Timestamp
  import opened Model
  import Framing

  datatype PacketRow = PacketRow(
    sourceNode: uint32,
    destinationNode: uint32,
    meshPacketID: uint32,
    channel: uint32,
    port: Option<int>,
    encrypted: bool,
    receivedAt: string,
    radioRxTime: Option<string>,
    rawPacket: Framing.bytes,
    rawPayload: Framing.bytes,
    parseStatus: string,
    parseError: Option<string>)

  datatype NodeRow = NodeRow(shortName: string, longName: string)

  datatype PositionRow = PositionRow(
    packetID: nat,
    dedupeKey: string,
    sourceNode: uint32,
    meshPacketID: uint32,
    sourcePort: int,
    callsign: string,
    deviceCallsign: Option<string>,
    latitude: int,
    longitude: int,
    altitude: Option<int>,
    speed: Option<int>,
    course: Option<int>,
    locationSource: Option<string>,
    precisionBits: nat,
    sourceTime: string,
    receivedAt: string)

  datatype DeliveryState = Pending | Delivered | Failed

  datatype DeliveryRow = DeliveryRow(
    positionID: nat,
    state: DeliveryState,
    attempts: nat,
    nextAttemptAt: string,
    lastError: Option<string>,
    deliveredAt: Option<string>)

  datatype TrackRow = TrackRow(deviceID: string, trackID: string)

  datatype Tables = Tables(
    packets: seq<PacketRow>,
    nodes: map<uint32, NodeRow>,
    positions: seq<PositionRow>,
    deliveries: seq<DeliveryRow>,
    tracks: map<string, TrackRow>)

  const EMPTY := Tables([], map[], [], [], map[])

  // ------------------------------------------------------------------ columns

  function NullableString(s: string): Option<string> {
    if s == "" then None else Some(s)
  }

  function NullableTime(t: Option<Instant>): Option<string> {
    if t.None? then None else Some(FormatTime(t.value))
  }

  function Coalesce(s: Option<string>): string {
    if s.None? then "" else s.value
  }

  function PacketRowOf(p: Packet): PacketRow {
    PacketRow(p.from, p.to, p.meshPacketID, p.channel, if p.encrypted then None else Some(p.port), p.encrypted,
              FormatTime(p.receivedAt), NullableTime(p.radioRxTime), p.rawPacket, p.rawPayload, p.parseStatus,
              NullableString(p.parseError))
  }

  function PositionRowOf(p: Position, packetID: nat, packetPort: int): PositionRow {
    PositionRow(packetID, PositionKey(p), p.sourceNode, p.meshPacketID,
                if p.sourcePort == 0 then packetPort else p.sourcePort,
                p.callsign, NullableString(p.deviceCallsign), p.latitude, p.longitude,
                p.altitude, p.speed, p.course, NullableString(p.locationSource), p.precisionBits,
                FormatTime(p.sourceTime), FormatTime(p.receivedAt))
  }

  /** A text that `formatTime` wrote. */
  predicate IsTimestamp(s: string) {
    ParseTime(s).Some? && FormatTime(ParseTime(s).value) == s
  }

  lemma FormattedIsTimestamp(t: Instant)
    ensures IsTimestamp(FormatTime(t)) && ParseTime(FormatTime(t)) == Some(t)
  {
    RoundTrip(t);
  }

  /** The instant a stored text stands for. A query reports an error on text that does not parse;
      no reachable store holds any (`Valid`). */
  function StoredTime(s: string): Instant {
    if ParseTime(s).Some? then ParseTime(s).value else 0
  }

  /** What the read queries return: the position's own row id stands in for its packet id. */
  function ReadPosition(row: PositionRow, id: nat): Position {
    Position(id, row.sourceNode, row.meshPacketID, row.sourcePort, row.callsign, Coalesce(row.deviceCallsign),
             row.latitude, row.longitude, row.altitude, row.speed, row.course, Coalesce(row.locationSource),
             row.precisionBits, StoredTime(row.sourceTime), StoredTime(row.receivedAt))
  }

  /** Column by column, what a position read from a row holds. */
  predicate Shows(p: Position, row: PositionRow, id: nat) {
    && p.packetID == id
    && p.sourceNode == row.sourceNode && p.meshPacketID == row.meshPacketID && p.sourcePort == row.sourcePort
    && p.callsign == row.callsign
    && (if row.deviceCallsign.Some? then p.deviceCallsign == row.deviceCallsign.value else p.deviceCallsign == "")
    && p.latitude == row.latitude && p.longitude == row.longitude
    && p.altitude == row.altitude && p.speed == row.speed && p.course == row.course
    && (if row.locationSource.Some? then p.locationSource == row.locationSource.value else p.locationSource == "")
    && p.precisionBits == row.precisionBits
    && ParseTime(row.sourceTime) == Some(p.sourceTime) && ParseTime(row.receivedAt) == Some(p.receivedAt)
  }

  /** Both times of the row can be read. */
  predicate Readable(row: PositionRow) {
    ParseTime(row.sourceTime).Some? && ParseTime(row.receivedAt).Some?
  }

  lemma ReadShows(row: PositionRow, id: nat)
    requires Readable(row)
    ensures Shows(ReadPosition(row, id), row, id)
  {
    hide ParseTime;
  }

  /** Reading a position back loses nothing but the packet id and an unset port. */
  lemma ReadWritten(p: Position, packetID: nat, packetPort: int, id: nat)
    ensures ReadPosition(PositionRowOf(p, packetID, packetPort), id)
         == p.(packetID := id, sourcePort := if p.sourcePort == 0 then packetPort else p.sourcePort)
  {
    FormattedIsTimestamp(p.sourceTime);
    FormattedIsTimestamp(p.receivedAt);
    hide FormatTime, ParseTime, PositionKey;
  }

  // ------------------------------------------------------------------ Archive

  /** `SELECT id FROM tak_positions WHERE dedupe_key = ?`. */
  function FindKey(rows: seq<PositionRow>, key: string): (id: Option<nat>)
    ensures id.Some? ==> 1 <= id.value <= |rows| && rows[id.value - 1].dedupeKey == key
    ensures id.None? ==> forall i | 0 <= i < |rows| :: rows[i].dedupeKey != key
  {
    if rows == [] then None
    else if rows[|rows| - 1].dedupeKey == key then Some(|rows|)
    else FindKey(rows[..|rows| - 1], key)
  }

  datatype Receipt = Receipt(packetID: nat, positionID: nat, inserted: bool)

  function NewDelivery(positionID: nat, now: Instant): DeliveryRow {
    DeliveryRow(positionID, Pending, 0, FormatTime(now), None, None)
  }

  /** The committed effect of `Archive`, or None when a CHECK constraint rejects the coordinates. */
  function Archive(db: Tables, packet: Packet, position: Option<Position>, enqueue: bool, now: Instant)
    : Option<(Tables, Receipt)>
  {
    var db1 := db.(packets := db.packets + [PacketRowOf(packet)]);
    var packetID := |db1.packets|;
    if position.None? then Some((db1, Receipt(packetID, 0, false)))
    else
      var p := position.value;
      var existing := FindKey(db.positions, PositionKey(p));
      if existing.Some? then Some((db1, Receipt(packetID, existing.value, false)))
      else if !OnEarth(p.latitude, p.longitude) then None
      else
        var db2 := db1.(positions := db.positions + [PositionRowOf(p, packetID, packet.port)]);
        var positionID := |db2.positions|;
        var db3 := if enqueue then db2.(deliveries := db.deliveries + [NewDelivery(positionID, now)]) else db2;
        Some((db3, Receipt(packetID, positionID, true)))
  }

  // ------------------------------------------------------------------ the other transactions

  function Renamed(row: PositionRow, node: uint32, callsign: string): PositionRow {
    if row.sourceNode == node && row.callsign == NodeID(node) then row.(callsign := callsign) else row
  }

  function EffectiveName(row: NodeRow): string {
    if row.shortName != "" then row.shortName else row.longName
  }

  function UpsertNode(db: Tables, node: uint32, shortName: string, longName: string): Tables {
    var row := NodeRow(TrimSpace(shortName), TrimSpace(longName));
    var callsign := EffectiveName(row);
    db.(nodes := db.nodes[node := row],
        positions := if callsign == "" then db.positions
                     else seq(|db.positions|, i requires 0 <= i < |db.positions| =>
                                                Renamed(db.positions[i], node, callsign)))
  }

  function NodeCallsign(db: Tables, node: uint32): string {
    if node in db.nodes then EffectiveName(db.nodes[node]) else ""
  }

  predicate IsDelivery(db: Tables, id: nat) {
    1 <= id <= |db.deliveries|
  }

  predicate IsPending(db: Tables, id: nat) {
    IsDelivery(db, id) && db.deliveries[id - 1].state == Pending
  }

  /** None stands for "pending CalTopo delivery was not found". */
  function MarkDelivered(db: Tables, id: nat, now: Instant): Option<Tables> {
    if !IsPending(db, id) then None
    else
      var row := db.deliveries[id - 1].(state := Delivered, deliveredAt := Some(FormatTime(now)), lastError := None);
      Some(db.(deliveries := db.deliveries[id - 1 := row]))
  }

  function MarkFailed(db: Tables, id: nat, attempts: nat, next: Instant, terminal: bool, message: string)
    : Option<Tables>
  {
    if !IsPending(db, id) then None
    else
      var row := db.deliveries[id - 1].(state := if terminal then Failed else Pending, attempts := attempts,
                                        nextAttemptAt := FormatTime(next), lastError := Some(message));
      Some(db.(deliveries := db.deliveries[id - 1 := row]))
  }

  function TrackID(db: Tables, sourceID: string): Option<string> {
    if sourceID in db.tracks then Some(db.tracks[sourceID].trackID) else None
  }

  /** Another source already uses the device or the track. */
  predicate TrackConflict(db: Tables, sourceID: string, deviceID: string, trackID: string) {
    exists s | s in db.tracks ::
      s != sourceID && (db.tracks[s].deviceID == deviceID || db.tracks[s].trackID == trackID)
  }

  /** None stands for a UNIQUE constraint violation. */
  function SaveTrack(db: Tables, sourceID: string, deviceID: string, trackID: string): Option<Tables> {
    if TrackConflict(db, sourceID, deviceID, trackID) then None
    else Some(db.(tracks := db.tracks[sourceID := TrackRow(deviceID, trackID)]))
  }

  // ------------------------------------------------------------------ what every reachable store keeps

  predicate ValidPosition(row: PositionRow, packets: nat) {
    && 1 <= row.packetID <= packets
    && OnEarth(row.latitude, row.longitude)
    && IsTimestamp(row.sourceTime) && IsTimestamp(row.receivedAt)
    && row.dedupeKey == KeyText(row.sourceNode, row.latitude, row.longitude, row.sourceTime)
  }

  predicate ValidDelivery(row: DeliveryRow, positions: nat) {
    1 <= row.positionID <= positions && IsTimestamp(row.nextAttemptAt)
  }

  predicate ValidPositions(rows: seq<PositionRow>, packets: nat) {
    forall i | 0 <= i < |rows| :: ValidPosition(rows[i], packets)
  }

  predicate ValidDeliveries(rows: seq<DeliveryRow>, positions: nat) {
    forall i | 0 <= i < |rows| :: ValidDelivery(rows[i], positions)
  }

  predicate DistinctKeys(rows: seq<PositionRow>) {
    forall i, j | 0 <= i < j < |rows| :: rows[i].dedupeKey != rows[j].dedupeKey
  }

  predicate OneDeliveryEach(rows: seq<DeliveryRow>) {
    forall i, j | 0 <= i < j < |rows| :: rows[i].positionID != rows[j].positionID
  }

  predicate DistinctTracks(tracks: map<string, TrackRow>) {
    forall s, t | s in tracks && t in tracks && s != t ::
      tracks[s].deviceID != tracks[t].deviceID && tracks[s].trackID != tracks[t].trackID
  }

  predicate Valid(db: Tables) {
    && ValidPositions(db.positions, |db.packets|)
    && ValidDeliveries(db.deliveries, |db.positions|)
    && DistinctKeys(db.positions)
    && OneDeliveryEach(db.deliveries)
    && DistinctTracks(db.tracks)
  }

  lemma ValidPositionWritten(p: Position, packetID: nat, packetPort: int)
    requires packetID >= 1 && OnEarth(p.latitude, p.longitude)
    ensures ValidPosition(PositionRowOf(p, packetID, packetPort), packetID)
  {
    FormattedIsTimestamp(p.sourceTime);
    FormattedIsTimestamp(p.receivedAt);
  }

  lemma ValidPositionsGrow(rows: seq<PositionRow>, packets: nat)
    requires ValidPositions(rows, packets)
    ensures ValidPositions(rows, packets + 1)
  {
    hide IsTimestamp, KeyText;
    forall i | 0 <= i < |rows| ensures ValidPosition(rows[i], packets + 1) {
      assert ValidPosition(rows[i], packets);
    }
  }

  lemma ArchiveValid(db: Tables, packet: Packet, position: Option<Position>, enqueue: bool, now: Instant)
    requires Valid(db)
    requires Archive(db, packet, position, enqueue, now).Some?
    ensures Valid(Archive(db, packet, position, enqueue, now).value.0)
  {
    hide ValidPosition, IsTimestamp, FormatTime, PositionKey;
    ValidPositionsGrow(db.positions, |db.packets|);
    if position.Some? && OnEarth(position.value.latitude, position.value.longitude) {
      ValidPositionWritten(position.value, |db.packets| + 1, packet.port);
      FormattedIsTimestamp(now);
    }
  }

  lemma RenamedValid(row: PositionRow, node: uint32, callsign: string, packets: nat)
    requires ValidPosition(row, packets)
    ensures ValidPosition(Renamed(row, node, callsign), packets)
  {
    hide IsTimestamp, KeyText, NodeID;
  }

  lemma UpsertValid(db: Tables, node: uint32, shortName: string, longName: string)
    requires Valid(db)
    ensures Valid(UpsertNode(db, node, shortName, longName))
  {
    hide ValidPosition, IsTimestamp, FormatTime;
    var db' := UpsertNode(db, node, shortName, longName);
    var callsign := EffectiveName(db'.nodes[node]);
    forall i | 0 <= i < |db'.positions| ensures ValidPosition(db'.positions[i], |db.packets|) {
      RenamedValid(db.positions[i], node, callsign, |db.packets|);
    }
  }

  lemma MarkDeliveredValid(db: Tables, id: nat, now: Instant)
    requires Valid(db) && IsPending(db, id)
    ensures Valid(MarkDelivered(db, id, now).value)
  {
    hide ValidPosition, IsTimestamp, FormatTime;
  }

  lemma MarkFailedValid(db: Tables, id: nat, attempts: nat, next: Instant, terminal: bool, message: string)
    requires Valid(db) && IsPending(db, id)
    ensures Valid(MarkFailed(db, id, attempts, next, terminal, message).value)
  {
    FormattedIsTimestamp(next);
    hide ValidPosition, IsTimestamp, FormatTime;
  }

  lemma SaveTrackValid(db: Tables, sourceID: string, deviceID: string, trackID: string)
    requires Valid(db) && SaveTrack(db, sourceID, deviceID, trackID).Some?
    ensures Valid(SaveTrack(db, sourceID, deviceID, trackID).value)
  {
    hide ValidPosition, IsTimestamp, FormatTime;
  }
}
