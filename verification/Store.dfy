/** `Store` (internal/store/store.go): the methods that run the transactions of `Database`.

    The last parameter of each method says where the database fails, if it does. A transaction works
    on a copy of the tables that replaces them only when it commits. */
module Stores {
  import opened Wrappers
  import opened Text
  import opened Timestamp
  import opened Model
  import opened Database
  import opened Deliveries
  import LatestPositions

  datatype StoreError = IoError | ConstraintViolation | NotFoundError | BadTimestamp

  /** The step of `Archive` at which the database fails. A step that is not reached does not fail. */
  datatype ArchiveFault = NoFault | AtBegin | AtPacket | AtLookup | AtPosition | AtDelivery | AtCommit

  class Store {
    var db: Tables

    constructor ()
      ensures db == EMPTY
    {
      db := EMPTY;
    }

    /** The node's row is replaced, and its positions that still show the bare identifier take its name if
        it has one. Nothing else changes, and a failure changes nothing. */
    method UpsertNode(node: uint32, shortName: string, longName: string, fails: bool) returns (r: Option<StoreError>)
      modifies this
      ensures r.Some? <==> fails
      ensures fails ==> db == old(db)
      ensures !fails ==>
                var name := if TrimSpace(shortName) != "" then TrimSpace(shortName) else TrimSpace(longName);
                && db.nodes == old(db).nodes[node := NodeRow(TrimSpace(shortName), TrimSpace(longName))]
                && |db.positions| == |old(db).positions|
                && (forall i | 0 <= i < |db.positions| ::
                      var row := old(db).positions[i];
                      var bare := row.sourceNode == node && row.callsign == NodeID(node);
                      db.positions[i] == if name != "" && bare then row.(callsign := name) else row)
                && db.packets == old(db).packets && db.deliveries == old(db).deliveries && db.tracks == old(db).tracks
      ensures !fails ==> db == Database.UpsertNode(old(db), node, shortName, longName)
    {
      hide NodeID, TrimSpace;
      if fails {
        return Some(IoError);
      }
      var row := NodeRow(TrimSpace(shortName), TrimSpace(longName));
      var tx := db.(nodes := db.nodes[node := row]);
      var callsign := row.shortName;
      if callsign == "" {
        callsign := row.longName;
      }
      if callsign != "" {
        tx := tx.(positions := seq(|tx.positions|, i requires 0 <= i < |tx.positions| =>
                                     Renamed(tx.positions[i], node, callsign)));
      }
      db := tx;
      return None;
    }

    /** The node's short name, else its long name, else nothing. */
    method NodeCallsign(node: uint32, fails: bool) returns (r: Result<string, StoreError>)
      ensures fails ==> r == Failure(IoError)
      ensures !fails && node !in db.nodes ==> r == Success("")
      ensures !fails && node in db.nodes ==>
                r == Success(if db.nodes[node].shortName != "" then db.nodes[node].shortName else db.nodes[node].longName)
      ensures !fails ==> r == Success(Database.NodeCallsign(db, node))
    {
      if fails {
        return Failure(IoError);
      }
      if node !in db.nodes {
        return Success("");
      }
      var row := db.nodes[node];
      if row.shortName != "" {
        return Success(row.shortName);
      }
      return Success(row.longName);
    }

    /** Any failure leaves every table as it was; a success is the whole transaction. */
    method Archive(packet: Packet, position: Option<Position>, enqueue: bool, now: Instant, fault: ArchiveFault)
      returns (r: Result<Receipt, StoreError>)
      modifies this
      ensures r.Failure? ==> db == old(db)
      ensures r.Success? ==> Database.Archive(old(db), packet, position, enqueue, now) == Some((db, r.value))
      ensures fault == NoFault && Database.Archive(old(db), packet, position, enqueue, now).Some? ==> r.Success?
    {
      hide PositionKey, FormatTime;
      if fault == AtBegin {
        return Failure(IoError);
      }
      var tx := db;
      if fault == AtPacket {
        return Failure(IoError);
      }
      tx := tx.(packets := tx.packets + [PacketRowOf(packet)]);
      var packetID := |tx.packets|;
      if position.None? {
        if fault == AtCommit {
          return Failure(IoError);
        }
        db := tx;
        return Success(Receipt(packetID, 0, false));
      }
      var p := position.value;
      if fault == AtLookup {
        return Failure(IoError);
      }
      var existing := FindKey(tx.positions, PositionKey(p));
      if existing.Some? {
        if fault == AtCommit {
          return Failure(IoError);
        }
        db := tx;
        return Success(Receipt(packetID, existing.value, false));
      }
      if fault == AtPosition {
        return Failure(IoError);
      }
      if !OnEarth(p.latitude, p.longitude) {
        return Failure(ConstraintViolation);
      }
      tx := tx.(positions := tx.positions + [PositionRowOf(p, packetID, packet.port)]);
      var positionID := |tx.positions|;
      if enqueue {
        if fault == AtDelivery {
          return Failure(IoError);
        }
        tx := tx.(deliveries := tx.deliveries + [NewDelivery(positionID, now)]);
      }
      if fault == AtCommit {
        return Failure(IoError);
      }
      db := tx;
      return Success(Receipt(packetID, positionID, true));
    }

    /** The worker's view of the rows: which deliveries, in which order, with which attempts and columns. */
    method PendingDeliveries(now: Instant, limit: nat, fails: bool) returns (r: Result<seq<Delivery>, StoreError>)
      requires Linked(db)
      ensures r.Success? ==> Offers(db, FormatTime(now), limit, r.value)
      ensures r.Success? ==> r.value == Deliveries.PendingDeliveries(db, FormatTime(now), limit)
      ensures Valid(db) ==> (r.Failure? <==> fails)
    {
      hide FormatTime, ParseTime, Valid, ReadDelivery, PendingRows, Deliveries.PendingDeliveries, Offers;
      if fails {
        return Failure(IoError);
      }
      var rows := PendingRows(db, FormatTime(now), limit);
      var deliveries: seq<Delivery> := [];
      for i := 0 to |rows|
        invariant deliveries == Deliveries.PendingDeliveries(db, FormatTime(now), limit)[..i]
        invariant forall a | 0 <= a < i :: Readable(PositionFor(db, rows[a] + 1))
      {
        var row := PositionFor(db, rows[i] + 1);
        if ParseTime(row.sourceTime).None? || ParseTime(row.receivedAt).None? {
          ParsesWhenValid(db, rows[i] + 1);
          return Failure(BadTimestamp);
        }
        PendingItem(db, FormatTime(now), limit, i);
        deliveries := deliveries + [ReadDelivery(db, rows[i] + 1)];
      }
      PendingIsOffers(db, FormatTime(now), limit);
      ghost var all := Deliveries.PendingDeliveries(db, FormatTime(now), limit);
      assert all[..|rows|] == all;
      return Success(deliveries);
    }

    /** The newest row of every node, column by column, in the order of source time and id. */
    method Positions(fails: bool) returns (r: Result<seq<Position>, StoreError>)
      ensures r.Success? ==> LatestPositions.LatestView(db.positions, r.value)
      ensures r.Success? ==> r.value == LatestPositions.Positions(db)
      ensures Valid(db) ==> (r.Failure? <==> fails)
    {
      hide FormatTime, ParseTime, Valid, ReadPosition, LatestPositions.LatestRows, LatestPositions.LatestView;
      if fails {
        return Failure(IoError);
      }
      var rows := LatestPositions.LatestRows(db.positions);
      var positions: seq<Position> := [];
      for i := 0 to |rows|
        invariant positions == LatestPositions.Positions(db)[..i]
        invariant forall a | 0 <= a < i :: Readable(db.positions[rows[a]])
      {
        var row := db.positions[rows[i]];
        if ParseTime(row.sourceTime).None? || ParseTime(row.receivedAt).None? {
          RowParsesWhenValid(db, rows[i]);
          return Failure(BadTimestamp);
        }
        positions := positions + [ReadPosition(row, rows[i] + 1)];
      }
      LatestPositions.PositionsAreView(db);
      ghost var all := LatestPositions.Positions(db);
      assert all[..|rows|] == all;
      return Success(positions);
    }

    /** A pending delivery becomes delivered; one that is not pending is reported. */
    method MarkDelivered(id: nat, now: Instant, fails: bool) returns (r: Option<StoreError>)
      modifies this
      ensures r.None? <==> !fails && IsPending(old(db), id)
      ensures r == Some(NotFoundError) <==> !fails && !IsPending(old(db), id)
      ensures r.Some? ==> db == old(db)
      ensures r.None? ==> OnlyDeliveryChanged(old(db), db, id)
      ensures r.None? ==>
                var before, after := old(db).deliveries[id - 1], db.deliveries[id - 1];
                && after.state == Delivered && after.deliveredAt == Some(FormatTime(now)) && after.lastError == None
                && after.attempts == before.attempts && after.nextAttemptAt == before.nextAttemptAt
      ensures r.None? ==> Database.MarkDelivered(old(db), id, now) == Some(db)
    {
      hide FormatTime;
      if fails {
        return Some(IoError);
      }
      if !IsPending(db, id) {
        return Some(NotFoundError);
      }
      var row := db.deliveries[id - 1];
      row := row.(state := Delivered, deliveredAt := Some(FormatTime(now)), lastError := None);
      db := db.(deliveries := db.deliveries[id - 1 := row]);
      return None;
    }

    /** A pending delivery records its failure and stays pending, or fails for good if that is terminal; one
        that is not pending is reported. */
    method MarkFailed(id: nat, attempts: nat, next: Instant, terminal: bool, message: string, fails: bool)
      returns (r: Option<StoreError>)
      modifies this
      ensures r.None? <==> !fails && IsPending(old(db), id)
      ensures r == Some(NotFoundError) <==> !fails && !IsPending(old(db), id)
      ensures r.Some? ==> db == old(db)
      ensures r.None? ==> OnlyDeliveryChanged(old(db), db, id)
      ensures r.None? ==>
                var before, after := old(db).deliveries[id - 1], db.deliveries[id - 1];
                && (after.state == Pending <==> !terminal) && (after.state == Failed <==> terminal)
                && after.attempts == attempts && after.nextAttemptAt == FormatTime(next)
                && after.lastError == Some(message) && after.deliveredAt == before.deliveredAt
      ensures r.None? ==> Database.MarkFailed(old(db), id, attempts, next, terminal, message) == Some(db)
    {
      hide FormatTime;
      if fails {
        return Some(IoError);
      }
      if !IsPending(db, id) {
        return Some(NotFoundError);
      }
      var state := Pending;
      if terminal {
        state := Failed;
      }
      var row := db.deliveries[id - 1];
      row := row.(state := state, attempts := attempts, nextAttemptAt := FormatTime(next), lastError := Some(message));
      db := db.(deliveries := db.deliveries[id - 1 := row]);
      return None;
    }

    /** The track last saved for a source (see `SavedTrackIsFound`). */
    method TrackID(sourceID: string, fails: bool) returns (r: Result<Option<string>, StoreError>)
      ensures fails <==> r == Failure(IoError)
      ensures !fails ==> (r == Success(None) <==> sourceID !in db.tracks)
      ensures !fails && sourceID in db.tracks ==> r == Success(Some(db.tracks[sourceID].trackID))
      ensures !fails ==> r == Success(Database.TrackID(db, sourceID))
    {
      if fails {
        return Failure(IoError);
      }
      if sourceID !in db.tracks {
        return Success(None);
      }
      return Success(Some(db.tracks[sourceID].trackID));
    }

    /** The source's mapping is inserted or replaced, unless another source holds the device or the track. */
    method SaveTrack(sourceID: string, deviceID: string, trackID: string, fails: bool) returns (r: Option<StoreError>)
      modifies this
      ensures r == Some(ConstraintViolation) <==>
                !fails && exists s | s in old(db).tracks && s != sourceID ::
                            old(db).tracks[s].deviceID == deviceID || old(db).tracks[s].trackID == trackID
      ensures r.Some? <==> r == Some(ConstraintViolation) || fails
      ensures r.Some? ==> db == old(db)
      ensures r.None? ==>
                && sourceID in db.tracks && db.tracks[sourceID] == TrackRow(deviceID, trackID)
                && db.tracks.Keys == old(db).tracks.Keys + {sourceID}
                && (forall s | s in old(db).tracks && s != sourceID :: db.tracks[s] == old(db).tracks[s])
                && db == old(db).(tracks := db.tracks)
      ensures !fails ==> Database.SaveTrack(old(db), sourceID, deviceID, trackID) == if r.None? then Some(db) else None
    {
      if fails {
        return Some(IoError);
      }
      if exists s | s in db.tracks ::
           s != sourceID && (db.tracks[s].deviceID == deviceID || db.tracks[s].trackID == trackID)
      {
        return Some(ConstraintViolation);
      }
      db := db.(tracks := db.tracks[sourceID := TrackRow(deviceID, trackID)]);
      return None;
    }
  }

  /** One delivery's row changed, but not which position it is for; everything else is as before. */
  predicate OnlyDeliveryChanged(before: Tables, after: Tables, id: nat)
    requires IsDelivery(before, id)
  {
    && after == before.(deliveries := after.deliveries)
    && |after.deliveries| == |before.deliveries|
    && after.deliveries[id - 1].positionID == before.deliveries[id - 1].positionID
    && forall i | 0 <= i < |before.deliveries| && i != id - 1 :: after.deliveries[i] == before.deliveries[i]
  }

  /** A node that was just remembered is called by its short name, else by its long name; the others keep
      their names. */
  lemma UpsertedIsCalled(db: Tables, node: uint32, shortName: string, longName: string, other: uint32)
    ensures var db' := Database.UpsertNode(db, node, shortName, longName);
            && Database.NodeCallsign(db', node)
               == (if TrimSpace(shortName) != "" then TrimSpace(shortName) else TrimSpace(longName))
            && (other != node ==> Database.NodeCallsign(db', other) == Database.NodeCallsign(db, other))
  {
    hide TrimSpace, NodeID;
  }

  /** A saved track is the one found for its source; the other sources keep theirs. */
  lemma SavedTrackIsFound(db: Tables, sourceID: string, deviceID: string, trackID: string, other: string)
    requires Database.SaveTrack(db, sourceID, deviceID, trackID).Some?
    ensures var db' := Database.SaveTrack(db, sourceID, deviceID, trackID).value;
            && Database.TrackID(db', sourceID) == Some(trackID)
            && (other != sourceID ==> Database.TrackID(db', other) == Database.TrackID(db, other))
  {
  }

  lemma RowParsesWhenValid(db: Tables, i: nat)
    requires i < |db.positions|
    ensures Valid(db) ==> ParseTime(db.positions[i].sourceTime).Some? && ParseTime(db.positions[i].receivedAt).Some?
  {
    hide FormatTime, ParseTime, KeyText, ValidDeliveries;
    if Valid(db) {
      assert ValidPosition(db.positions[i], |db.packets|);
    }
  }

  lemma ParsesWhenValid(db: Tables, id: nat)
    requires Linked(db) && IsDelivery(db, id)
    ensures Valid(db) ==> ParseTime(PositionFor(db, id).sourceTime).Some? && ParseTime(PositionFor(db, id).receivedAt).Some?
  {
    hide FormatTime, ParseTime, KeyText, ValidDeliveries;
    if Valid(db) {
      assert ValidPosition(PositionFor(db, id), |db.packets|);
    }
  }
}
