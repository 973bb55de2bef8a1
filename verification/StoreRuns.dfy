/** What every reachable store keeps, over any sequence of transactions. */
module StoreRuns {
  import opened Wrappers
  import opened Timestamp
  import opened Model
  import opened Database

  /** A transaction of internal/store/store.go. One that fails leaves every table as it was. */
  datatype Op =
    | ArchiveOp(packet: Packet, position: Option<Position>, enqueue: bool, now: Instant)
    | UpsertOp(node: uint32, shortName: string, longName: string)
    | DeliveredOp(id: nat, now: Instant)
    | FailedOp(id: nat, attempts: nat, next: Instant, terminal: bool, message: string)
    | SaveTrackOp(sourceID: string, deviceID: string, trackID: string)

  function OrElse(r: Option<Tables>, db: Tables): Tables {
    if r.Some? then r.value else db
  }

  function Apply(db: Tables, op: Op): Tables {
    match op
    case ArchiveOp(packet, position, enqueue, now) =>
      var r := Archive(db, packet, position, enqueue, now);
      if r.Some? then r.value.0 else db
    case UpsertOp(node, shortName, longName) => UpsertNode(db, node, shortName, longName)
    case DeliveredOp(id, now) => OrElse(MarkDelivered(db, id, now), db)
    case FailedOp(id, attempts, next, terminal, message) => OrElse(MarkFailed(db, id, attempts, next, terminal, message), db)
    case SaveTrackOp(sourceID, deviceID, trackID) => OrElse(SaveTrack(db, sourceID, deviceID, trackID), db)
  }

  function RunOps(db: Tables, ops: seq<Op>): Tables
    decreases |ops|
  {
    if ops == [] then db else RunOps(Apply(db, ops[0]), ops[1..])
  }

  lemma ApplyValid(db: Tables, op: Op)
    requires Valid(db)
    ensures Valid(Apply(db, op))
  {
    hide Valid, Archive, UpsertNode, SaveTrack, FormatTime;
    match op
    case ArchiveOp(packet, position, enqueue, now) =>
      if Archive(db, packet, position, enqueue, now).Some? {
        ArchiveValid(db, packet, position, enqueue, now);
      }
    case UpsertOp(node, shortName, longName) => UpsertValid(db, node, shortName, longName);
    case DeliveredOp(id, now) =>
      if IsPending(db, id) {
        MarkDeliveredValid(db, id, now);
      }
    case FailedOp(id, attempts, next, terminal, message) =>
      if IsPending(db, id) {
        MarkFailedValid(db, id, attempts, next, terminal, message);
      }
    case SaveTrackOp(sourceID, deviceID, trackID) =>
      if SaveTrack(db, sourceID, deviceID, trackID).Some? {
        SaveTrackValid(db, sourceID, deviceID, trackID);
      }
  }

  /** Every reachable store has distinct dedupe keys, valid references, coordinates on Earth, readable
      times, at most one delivery per position, and distinct devices and tracks. */
  lemma {:induction false} ReachableIsValid(db: Tables, ops: seq<Op>)
    requires Valid(db)
    ensures Valid(RunOps(db, ops))
    decreases |ops|
  {
    hide Valid, Apply;
    if ops != [] {
      ApplyValid(db, ops[0]);
      ReachableIsValid(Apply(db, ops[0]), ops[1..]);
    }
  }

  lemma EmptyIsValid()
    ensures Valid(EMPTY)
  {
  }

  // ------------------------------------------------------------------ one Archive

  predicate HasKey(rows: seq<PositionRow>, key: string) {
    exists i | 0 <= i < |rows| :: rows[i].dedupeKey == key
  }

  /** A successful Archive adds exactly one packet; a position exactly when one is given whose key is
      new; a delivery, pending and for that position, exactly when a position was added to be enqueued;
      and nothing else. It fails only for a new position off the globe. */
  lemma ArchiveExact(db: Tables, packet: Packet, position: Option<Position>, enqueue: bool, now: Instant)
    ensures var isNew := position.Some? && !HasKey(db.positions, PositionKey(position.value));
            var r := Archive(db, packet, position, enqueue, now);
            && (r.None? <==> isNew && !OnEarth(position.value.latitude, position.value.longitude))
            && (r.Some? ==>
                  var (db', receipt) := r.value;
                  && db'.nodes == db.nodes && db'.tracks == db.tracks
                  && |db'.packets| == |db.packets| + 1 && db.packets <= db'.packets
                  && receipt.packetID == |db'.packets| && receipt.inserted == isNew
                  && db.positions <= db'.positions && db.deliveries <= db'.deliveries
                  && |db'.positions| == |db.positions| + (if isNew then 1 else 0)
                  && |db'.deliveries| == |db.deliveries| + (if isNew && enqueue then 1 else 0)
                  && (position.Some? ==>
                        1 <= receipt.positionID <= |db'.positions|
                        && db'.positions[receipt.positionID - 1].dedupeKey == PositionKey(position.value))
                  && (isNew ==>
                        && receipt.positionID == |db'.positions|
                        && db'.positions[|db.positions|].packetID == receipt.packetID)
                  && (isNew && enqueue ==>
                        && db'.deliveries[|db.deliveries|].positionID == receipt.positionID
                        && db'.deliveries[|db.deliveries|].state == Pending))
  {
    hide PositionKey, FormatTime, NodeID;
  }

  /** The columns of an archived packet. */
  predicate PacketColumns(row: PacketRow, packet: Packet) {
    && row.sourceNode == packet.from && row.destinationNode == packet.to && row.meshPacketID == packet.meshPacketID
    && row.channel == packet.channel && row.encrypted == packet.encrypted
    && (if packet.encrypted then row.port == None else row.port == Some(packet.port))
    && row.receivedAt == FormatTime(packet.receivedAt)
    && (packet.radioRxTime.None? ==> row.radioRxTime == None)
    && (packet.radioRxTime.Some? ==> row.radioRxTime == Some(FormatTime(packet.radioRxTime.value)))
    && row.rawPacket == packet.rawPacket && row.rawPayload == packet.rawPayload && row.parseStatus == packet.parseStatus
    && (if packet.parseError == "" then row.parseError == None else row.parseError == Some(packet.parseError))
  }

  /** The columns of an archived position. */
  predicate PositionColumns(row: PositionRow, p: Position, packetID: nat, packetPort: int) {
    && row.packetID == packetID && row.dedupeKey == PositionKey(p)
    && row.sourceNode == p.sourceNode && row.meshPacketID == p.meshPacketID
    && (if p.sourcePort == 0 then row.sourcePort == packetPort else row.sourcePort == p.sourcePort)
    && row.callsign == p.callsign
    && (if p.deviceCallsign == "" then row.deviceCallsign == None else row.deviceCallsign == Some(p.deviceCallsign))
    && row.latitude == p.latitude && row.longitude == p.longitude
    && row.altitude == p.altitude && row.speed == p.speed && row.course == p.course
    && (if p.locationSource == "" then row.locationSource == None else row.locationSource == Some(p.locationSource))
    && row.precisionBits == p.precisionBits
    && row.sourceTime == FormatTime(p.sourceTime) && row.receivedAt == FormatTime(p.receivedAt)
  }

  /** Column by column, the rows that Archive adds; a new delivery is due at once and was never attempted. */
  lemma ArchivedColumns(db: Tables, packet: Packet, position: Option<Position>, enqueue: bool, now: Instant)
    requires Archive(db, packet, position, enqueue, now).Some?
    ensures var (db', receipt) := Archive(db, packet, position, enqueue, now).value;
            && |db'.packets| == |db.packets| + 1 && PacketColumns(db'.packets[|db.packets|], packet)
            && (receipt.inserted ==>
                  && position.Some? && |db'.positions| == |db.positions| + 1
                  && PositionColumns(db'.positions[|db.positions|], position.value, receipt.packetID, packet.port))
            && (receipt.inserted && enqueue ==>
                  && |db'.deliveries| == |db.deliveries| + 1
                  && db'.deliveries[|db.deliveries|]
                     == DeliveryRow(receipt.positionID, Pending, 0, FormatTime(now), None, None))
  {
    hide PositionKey, FormatTime, NodeID, OnEarth;
  }

  // ------------------------------------------------------------------ the same fix again

  /** The position row that a key names never changes its id. */
  lemma KeyKeepsID(db: Tables, op: Op, key: string, id: nat)
    requires 1 <= id <= |db.positions| && db.positions[id - 1].dedupeKey == key
    ensures id <= |Apply(db, op).positions| && Apply(db, op).positions[id - 1].dedupeKey == key
  {
    hide PositionKey, FormatTime, NodeID;
  }

  lemma {:induction false} KeyKeepsIDs(db: Tables, ops: seq<Op>, key: string, id: nat)
    requires 1 <= id <= |db.positions| && db.positions[id - 1].dedupeKey == key
    ensures id <= |RunOps(db, ops).positions| && RunOps(db, ops).positions[id - 1].dedupeKey == key
    decreases |ops|
  {
    hide Apply;
    if ops != [] {
      KeyKeepsID(db, ops[0], key, id);
      KeyKeepsIDs(Apply(db, ops[0]), ops[1..], key, id);
    }
  }

  /** Once archived, a fix keeps its position id: after any transactions whatever, archiving a position
      with the same key succeeds, returns that id, and adds neither a position nor a delivery. */
  lemma SameFixSamePosition(db: Tables, db1: Tables, receipt: Receipt, ops: seq<Op>, packet: Packet, p: Position,
                            packet': Packet, p': Position, enqueue: bool, enqueue': bool, now: Instant, now': Instant)
    requires Valid(db) && PositionKey(p) == PositionKey(p')
    requires Archive(db, packet, Some(p), enqueue, now) == Some((db1, receipt))
    ensures var db2 := RunOps(db1, ops);
            var r := Archive(db2, packet', Some(p'), enqueue', now');
            && r.Some? && r.value.1.positionID == receipt.positionID && !r.value.1.inserted
            && r.value.0.positions == db2.positions && r.value.0.deliveries == db2.deliveries
  {
    hide Valid, PositionKey, FormatTime, OnEarth, Archive, RunOps;
    ArchiveValid(db, packet, Some(p), enqueue, now);
    ArchiveNames(db, db1, receipt, packet, p, enqueue, now);
    KeyKeepsIDs(db1, ops, PositionKey(p), receipt.positionID);
    ReachableIsValid(db1, ops);
    FindDistinct(RunOps(db1, ops), PositionKey(p), receipt.positionID);
    Refound(RunOps(db1, ops), packet', p', enqueue', now', receipt.positionID);
  }

  lemma ArchiveNames(db: Tables, db1: Tables, receipt: Receipt, packet: Packet, p: Position, enqueue: bool, now: Instant)
    requires Archive(db, packet, Some(p), enqueue, now) == Some((db1, receipt))
    ensures 1 <= receipt.positionID <= |db1.positions|
    ensures db1.positions[receipt.positionID - 1].dedupeKey == PositionKey(p)
  {
    hide PositionKey, FormatTime;
  }

  lemma FindDistinct(db: Tables, key: string, id: nat)
    requires Valid(db) && 1 <= id <= |db.positions| && db.positions[id - 1].dedupeKey == key
    ensures FindKey(db.positions, key) == Some(id)
  {
    hide ValidPosition, ValidDelivery;
    var found, row := FindKey(db.positions, key), db.positions[id - 1];
    assert row.dedupeKey == key;
    assert DistinctKeys(db.positions);
  }

  lemma Refound(db: Tables, packet: Packet, p: Position, enqueue: bool, now: Instant, id: nat)
    requires FindKey(db.positions, PositionKey(p)) == Some(id)
    ensures var r := Archive(db, packet, Some(p), enqueue, now);
            && r.Some? && r.value.1.positionID == id && !r.value.1.inserted
            && r.value.0.positions == db.positions && r.value.0.deliveries == db.deliveries
  {
    hide PositionKey, FormatTime, FindKey;
  }
}
