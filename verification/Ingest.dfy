/** `Service.Handle` (internal/ingest/service.go): what one message from the radio does to the store.

    A call that fails may leave the node directory updated, never half an archived packet. */
module Ingest {
  import opened Wrappers
  import opened Timestamp
  import opened Model
  import opened Decoder
  import opened Database
  import opened Stores
  import opened StoreRuns
  import Text

  /** The variants of meshtastic.FromRadio that `Handle` tells apart. */
  datatype Message =
    | Metadata
    | DeviceConfig
    | ConfigComplete(id: uint32)
    | NodeInfo(num: uint32, user: Option<User>)
    | PacketMessage(packet: MeshPacket)
    | OtherMessage

  datatype Settings = Settings(codec: Codec, hasNodes: bool, enqueue: bool, decodePositionApp: bool)

  /** The clock readings of one call: when the packet is decoded, and when its delivery is enqueued. */
  datatype Moment = Moment(receivedAt: Instant, enqueuedAt: Instant)

  // ------------------------------------------------------------------ the effect of a message

  function RememberNode(s: Settings, db: Tables, node: uint32, user: Option<User>): Tables {
    if s.hasNodes && user.Some? then Database.UpsertNode(db, node, user.value.shortName, user.value.longName) else db
  }

  /** The user a NODEINFO_APP packet carries. */
  function CarriedUser(s: Settings, packet: MeshPacket): Option<User> {
    if packet.variant.Decoded? && packet.variant.portnum == NODEINFO_APP then
      match s.codec.unmarshalUser(packet.variant.payload)
      case Success(user) => Some(user)
      case Failure(_) => None
    else None
  }

  /** The store once the message's node, if any, is in the directory. */
  function Remembered(s: Settings, db: Tables, message: Message): Tables {
    match message
    case NodeInfo(num, user) => RememberNode(s, db, num, user)
    case PacketMessage(packet) => RememberNode(s, db, packet.from, CarriedUser(s, packet))
    case _ => db
  }

  /** A position that has only its node's identifier for a callsign takes the directory's name. */
  function Backfilled(s: Settings, db: Tables, p: Position): Position {
    if p.callsign == p.SourceID() && s.hasNodes && Database.NodeCallsign(db, p.sourceNode) != "" then
      p.(callsign := Database.NodeCallsign(db, p.sourceNode))
    else p
  }

  /** The transaction that archives a packet. */
  function Archival(s: Settings, db: Tables, packet: MeshPacket, t: Moment): Op {
    var (record, position) := Decode(s.codec, packet, t.receivedAt, s.decodePositionApp);
    ArchiveOp(record, if position.Some? then Some(Backfilled(s, db, position.value)) else None, s.enqueue, t.enqueuedAt)
  }

  /** The whole effect of a message that is handled successfully. */
  function Handled(s: Settings, db: Tables, message: Message, t: Moment): Tables {
    var db1 := Remembered(s, db, message);
    if message.PacketMessage? then Apply(db1, Archival(s, db1, message.packet, t)) else db1
  }

  // ------------------------------------------------------------------ the program

  /** Where the database fails during one call. */
  datatype HandleFault = HandleFault(upsert: bool, lookup: bool, archive: ArchiveFault)

  const SOUND := HandleFault(false, false, NoFault)

  class Service {
    const settings: Settings
    const store: Store

    constructor (settings: Settings, store: Store)
      ensures this.settings == settings && this.store == store
    {
      this.settings, this.store := settings, store;
    }

    method RememberUser(node: uint32, user: Option<User>, fails: bool) returns (err: Option<StoreError>)
      modifies store
      ensures err.None? ==> store.db == RememberNode(settings, old(store.db), node, user)
      ensures err.Some? ==> store.db == old(store.db) && fails
    {
      if !settings.hasNodes || user.None? {
        return None;
      }
      err := store.UpsertNode(node, user.value.shortName, user.value.longName, fails);
    }

    /** The second half of `Handle`: decode, look the callsign up, archive. */
    method ArchivePacket(packet: MeshPacket, t: Moment, fault: HandleFault) returns (err: Option<StoreError>, woken: bool)
      modifies store
      ensures err.None? ==> store.db == Apply(old(store.db), Archival(settings, old(store.db), packet, t))
      ensures err.Some? ==> store.db == old(store.db) && fault != SOUND
      ensures err.None? ==> (woken <==> |store.db.positions| > |old(store.db).positions|)
    {
      hide Decode, Database.Archive, NodeID, Database.NodeCallsign, FormatTime;
      ghost var op := Archival(settings, store.db, packet, t);
      DecodedArchives(settings, store.db, packet, t);
      var record, position := DecodeWithOptions(settings.codec, packet, t.receivedAt, settings.decodePositionApp);
      if position.Some? && position.value.callsign == position.value.SourceID() && settings.hasNodes {
        var callsign := store.NodeCallsign(position.value.sourceNode, fault.lookup);
        if callsign.Failure? {
          return Some(callsign.error), false;
        }
        if callsign.value != "" {
          position := Some(position.value.(callsign := callsign.value));
        }
      }
      assert op == ArchiveOp(record, position, settings.enqueue, t.enqueuedAt);
      hide Archival;
      ArchiveCount(store.db, record, position, settings.enqueue, t.enqueuedAt);
      var receipt := store.Archive(record, position, settings.enqueue, t.enqueuedAt, fault.archive);
      if receipt.Failure? {
        return Some(receipt.error), false;
      }
      return None, position.Some? && receipt.value.inserted;
    }

    /** Success is the message's whole effect; failure leaves the store as it was or with the node
        remembered; without faults there is no failure. Deliveries are woken exactly when a position is added. */
    method Handle(message: Message, t: Moment, fault: HandleFault) returns (err: Option<StoreError>, woken: bool)
      modifies store
      ensures err.None? ==> store.db == Handled(settings, old(store.db), message, t)
      ensures err.Some? ==> store.db == old(store.db) || store.db == Remembered(settings, old(store.db), message)
      ensures fault == SOUND ==> err.None?
      ensures err.None? ==> (woken <==> |store.db.positions| > |old(store.db).positions|)
    {
      hide Archival, Apply, Database.UpsertNode;
      UpsertKeepsCount(settings, store.db, message);
      woken := false;
      if message.NodeInfo? {
        err := RememberUser(message.num, message.user, fault.upsert);
        return;
      }
      if !message.PacketMessage? {
        return None, false;
      }
      var packet := message.packet;
      if packet.variant.Decoded? && packet.variant.portnum == NODEINFO_APP {
        var user := settings.codec.unmarshalUser(packet.variant.payload);
        if user.Success? {
          err := RememberUser(packet.from, Some(user.value), fault.upsert);
          if err.Some? {
            return;
          }
        }
      }
      err, woken := ArchivePacket(packet, t, fault);
    }
  }

  lemma UpsertKeepsCount(s: Settings, db: Tables, message: Message)
    ensures |Remembered(s, db, message).positions| == |db.positions|
  {
    hide NodeID;
  }

  lemma ArchiveCount(db: Tables, packet: Packet, position: Option<Position>, enqueue: bool, now: Instant)
    requires Database.Archive(db, packet, position, enqueue, now).Some?
    ensures var (db', receipt) := Database.Archive(db, packet, position, enqueue, now).value;
            && (receipt.inserted ==> position.Some?)
            && |db'.positions| == |db.positions| + (if receipt.inserted then 1 else 0)
  {
    hide PositionKey, FormatTime, NodeID;
  }

  /** The tables' CHECK ranges accept every decoded position. */
  lemma DecodedArchives(s: Settings, db: Tables, packet: MeshPacket, t: Moment)
    ensures var op := Archival(s, db, packet, t);
            Database.Archive(db, op.packet, op.position, op.enqueue, op.now).Some?
  {
    DecodedPosition(s.codec, packet, t.receivedAt, s.decodePositionApp);
    hide PositionKey, FormatTime, NodeID, Decode, FindKey;
  }

  // ------------------------------------------------------------------ a failed call leaves nothing to undo

  lemma UpsertIdempotent(db: Tables, node: uint32, shortName: string, longName: string)
    ensures var db1 := Database.UpsertNode(db, node, shortName, longName);
            Database.UpsertNode(db1, node, shortName, longName) == db1
  {
    hide NodeID;
    var db1 := Database.UpsertNode(db, node, shortName, longName);
    var db2 := Database.UpsertNode(db1, node, shortName, longName);
    assert db2.positions == db1.positions;
  }

  /** Retrying after any failure ends where a first-time success would. */
  lemma RetryAbsorbs(s: Settings, db: Tables, message: Message, t: Moment)
    ensures Remembered(s, Remembered(s, db, message), message) == Remembered(s, db, message)
    ensures Handled(s, Remembered(s, db, message), message, t) == Handled(s, db, message, t)
  {
    hide Database.UpsertNode, Apply, Archival, CarriedUser;
    match message
    case NodeInfo(num, user) => if user.Some? { UpsertIdempotent(db, num, user.value.shortName, user.value.longName); }
    case PacketMessage(packet) =>
      var user := CarriedUser(s, packet);
      if user.Some? { UpsertIdempotent(db, packet.from, user.value.shortName, user.value.longName); }
    case _ =>
  }

  /** The packet row a message adds, if it adds one. */
  function NewRows(s: Settings, message: Message, t: Moment): seq<PacketRow> {
    if message.PacketMessage? then
      [PacketRowOf(Decode(s.codec, message.packet, t.receivedAt, s.decodePositionApp).0)]
    else []
  }

  lemma ArchivePackets(db: Tables, op: Op)
    requires op.ArchiveOp? && Database.Archive(db, op.packet, op.position, op.enqueue, op.now).Some?
    ensures Apply(db, op).packets == db.packets + [PacketRowOf(op.packet)]
  {
    hide PositionKey, FormatTime, NodeID, FindKey, PacketRowOf, OnEarth;
  }

  /** A handled message archives exactly one packet row if it carries a packet, and none otherwise. */
  lemma HandledPackets(s: Settings, db: Tables, message: Message, t: Moment)
    ensures Handled(s, db, message, t).packets == db.packets + NewRows(s, message, t)
    ensures Remembered(s, db, message).packets == db.packets
  {
    RememberedPackets(s, db, message);
    hide Remembered, Apply, Decode, PacketRowOf, Database.Archive;
    if message.PacketMessage? {
      var db1 := Remembered(s, db, message);
      DecodedArchives(s, db1, message.packet, t);
      ArchivePackets(db1, Archival(s, db1, message.packet, t));
    }
  }

  lemma RememberedPackets(s: Settings, db: Tables, message: Message)
    ensures Remembered(s, db, message).packets == db.packets
  {
    hide NodeID, CarriedUser;
  }

  /** The user a message names, and the node it names it for: a node report always may, a packet only on the
      node information port and if its payload can be read. */
  predicate Names(s: Settings, message: Message, node: uint32, user: User) {
    || (message.NodeInfo? && message.num == node && message.user == Some(user))
    || (message.PacketMessage? && message.packet.from == node
        && message.packet.variant.Decoded? && message.packet.variant.portnum == 4
        && s.codec.unmarshalUser(message.packet.variant.payload) == Success(user))
  }

  /** A message that names a user sets the directory row of its node, unless there is no directory; no other
      message changes the directory. */
  lemma DirectoryAfter(s: Settings, db: Tables, message: Message, t: Moment, node: uint32, user: User)
    ensures s.hasNodes && Names(s, message, node, user) ==>
              Handled(s, db, message, t).nodes
              == db.nodes[node := NodeRow(Text.TrimSpace(user.shortName), Text.TrimSpace(user.longName))]
    ensures (!s.hasNodes || forall n, u :: !Names(s, message, n, u)) ==> Handled(s, db, message, t).nodes == db.nodes
  {
    hide Text.TrimSpace, NodeID, Archival, Apply;
    var db1 := Remembered(s, db, message);
    if message.PacketMessage? {
      ArchivalNodes(s, db1, message.packet, t);
      var carried := CarriedUser(s, message.packet);
      assert carried.Some? ==> Names(s, message, message.packet.from, carried.value);
    } else if message.NodeInfo? && message.user.Some? {
      assert Names(s, message, message.num, message.user.value);
    }
  }

  /** Every other message leaves the store alone. */
  lemma OthersLeaveNothing(s: Settings, db: Tables, message: Message, t: Moment)
    requires !message.PacketMessage? && !message.NodeInfo?
    ensures Handled(s, db, message, t) == db
  {
  }

  lemma ArchivalNodes(s: Settings, db: Tables, packet: MeshPacket, t: Moment)
    ensures Apply(db, Archival(s, db, packet, t)).nodes == db.nodes
  {
    hide Decode, Backfilled, FormatTime, PositionKey, FindKey, OnEarth, PacketRowOf;
  }

  /** The name a directory gives a node: its short name, else its long name, else none. */
  function NameIn(nodes: map<uint32, NodeRow>, node: uint32): string {
    if node !in nodes then ""
    else if nodes[node].shortName != "" then nodes[node].shortName
    else nodes[node].longName
  }

  /** What a packet leaves in the tables: its own row; and, if it decodes to a position with a new key, that
      position with a delivery exactly if enqueueing is on. A callsign other than the bare identifier is
      archived as it came; the bare identifier gives way to the name the directory has by then. */
  lemma PacketLeaves(s: Settings, db: Tables, packet: MeshPacket, t: Moment)
    ensures var db' := Handled(s, db, PacketMessage(packet), t);
            var (record, position) := Decode(s.codec, packet, t.receivedAt, s.decodePositionApp);
            var isNew := position.Some? && !HasKey(db.positions, PositionKey(position.value));
            && |db'.packets| == |db.packets| + 1 && PacketColumns(db'.packets[|db.packets|], record)
            && |db'.positions| == |db.positions| + (if isNew then 1 else 0)
            && |db'.deliveries| == |db.deliveries| + (if isNew && s.enqueue then 1 else 0)
            && (isNew ==>
                  var p, row := position.value, db'.positions[|db.positions|];
                  var name := NameIn(db'.nodes, packet.from);
                  var callsign := if s.hasNodes && p.callsign == NodeID(packet.from) && name != "" then name else p.callsign;
                  PositionColumns(row, p.(callsign := callsign), |db'.packets|, record.port))
  {
    hide Decode, Archival, Apply, PacketColumns, PositionColumns, HasKey, PositionKey, NodeID;
    var db1 := Remembered(s, db, PacketMessage(packet));
    RememberedRows(s, db, packet);
    ArchivalLeaves(s, db1, packet, t);
    ArchivalNodes(s, db1, packet, t);
  }

  lemma RememberedRows(s: Settings, db: Tables, packet: MeshPacket)
    ensures var db1 := Remembered(s, db, PacketMessage(packet));
            && db1.packets == db.packets && db1.deliveries == db.deliveries && |db1.positions| == |db.positions|
            && forall key :: HasKey(db1.positions, key) <==> HasKey(db.positions, key)
  {
    hide NodeID, CarriedUser, Text.TrimSpace;
    var db1 := Remembered(s, db, PacketMessage(packet));
    assert |db1.positions| == |db.positions|;
    assert forall i | 0 <= i < |db.positions| :: db1.positions[i].dedupeKey == db.positions[i].dedupeKey;
  }

  lemma ArchivalLeaves(s: Settings, db: Tables, packet: MeshPacket, t: Moment)
    ensures var db' := Apply(db, Archival(s, db, packet, t));
            var (record, position) := Decode(s.codec, packet, t.receivedAt, s.decodePositionApp);
            var isNew := position.Some? && !HasKey(db.positions, PositionKey(position.value));
            && |db'.packets| == |db.packets| + 1 && PacketColumns(db'.packets[|db.packets|], record)
            && |db'.positions| == |db.positions| + (if isNew then 1 else 0)
            && |db'.deliveries| == |db.deliveries| + (if isNew && s.enqueue then 1 else 0)
            && (isNew ==>
                  var p, row := position.value, db'.positions[|db.positions|];
                  var name := NameIn(db.nodes, packet.from);
                  var callsign := if s.hasNodes && p.callsign == NodeID(packet.from) && name != "" then name else p.callsign;
                  PositionColumns(row, p.(callsign := callsign), |db'.packets|, record.port))
  {
    hide Decode, Archival, PacketColumns, PositionColumns, HasKey, NodeID, NameIn, Database.Archive, PositionKey, OnEarth;
    DecodedOwner(s, packet, t);
    DecodedArchives(s, db, packet, t);
    ArchivalNames(s, db, packet, t);
    var op := Archival(s, db, packet, t);
    ArchiveExact(db, op.packet, op.position, op.enqueue, op.now);
    ArchivedColumns(db, op.packet, op.position, op.enqueue, op.now);
  }

  lemma KeyIgnoresCallsign(p: Position, callsign: string)
    ensures PositionKey(p.(callsign := callsign)) == PositionKey(p)
  {
    hide FormatTime, KeyText;
  }

  /** What is archived: the decoded record, and the decoded position under its final callsign. */
  lemma ArchivalNames(s: Settings, db: Tables, packet: MeshPacket, t: Moment)
    ensures var op := Archival(s, db, packet, t);
            var (record, position) := Decode(s.codec, packet, t.receivedAt, s.decodePositionApp);
            && op.ArchiveOp? && op.packet == record && op.enqueue == s.enqueue && (op.position.Some? <==> position.Some?)
            && (position.Some? ==>
                  var p, name := position.value, NameIn(db.nodes, packet.from);
                  var callsign := if s.hasNodes && p.callsign == NodeID(packet.from) && name != "" then name else p.callsign;
                  op.position.value == p.(callsign := callsign) && PositionKey(op.position.value) == PositionKey(p))
  {
    hide Decode, NodeID, PositionKey;
    DecodedOwner(s, packet, t);
    var op := Archival(s, db, packet, t);
    if op.position.Some? {
      var p := Decode(s.codec, packet, t.receivedAt, s.decodePositionApp).1.value;
      KeyIgnoresCallsign(p, op.position.value.callsign);
    }
  }

  lemma DecodedOwner(s: Settings, packet: MeshPacket, t: Moment)
    ensures var position := Decode(s.codec, packet, t.receivedAt, s.decodePositionApp).1;
            position.Some? ==> position.value.sourceNode == packet.from
  {
    DecodedPosition(s.codec, packet, t.receivedAt, s.decodePositionApp);
    hide Decode;
  }

  // ------------------------------------------------------------------ the callsign invariant

  /** A row that carries the bare node identifier belongs to a node with no name, or with that very name. */
  predicate CallsignOK(db: Tables, row: PositionRow) {
    row.callsign == NodeID(row.sourceNode) ==> Database.NodeCallsign(db, row.sourceNode) in ["", NodeID(row.sourceNode)]
  }

  predicate CallsignsOK(db: Tables) {
    forall i | 0 <= i < |db.positions| :: CallsignOK(db, db.positions[i])
  }

  /** A service without a directory leaves it empty. */
  predicate DirectoryOK(s: Settings, db: Tables) {
    s.hasNodes || db.nodes == map[]
  }

  /** How far a call got. */
  datatype Progress = Done | Nothing | NodeOnly

  /** What the store sees over time: calls of `Handle`, and the delivery worker's transactions. */
  datatype Activity =
    | Call(message: Message, t: Moment, progress: Progress)
    | Worker(op: Op)

  predicate IsWorkerOp(op: Op) {
    op.DeliveredOp? || op.FailedOp? || op.SaveTrackOp?
  }

  function Happen(s: Settings, db: Tables, a: Activity): Tables {
    match a
    case Call(message, t, Done) => Handled(s, db, message, t)
    case Call(message, t, Nothing) => db
    case Call(message, t, NodeOnly) => Remembered(s, db, message)
    case Worker(op) => if IsWorkerOp(op) then Apply(db, op) else db
  }

  function History(s: Settings, db: Tables, activities: seq<Activity>): Tables
    decreases |activities|
  {
    if activities == [] then db else History(s, Happen(s, db, activities[0]), activities[1..])
  }

  lemma UpsertCallsigns(db: Tables, node: uint32, shortName: string, longName: string)
    requires CallsignsOK(db)
    ensures CallsignsOK(Database.UpsertNode(db, node, shortName, longName))
  {
    hide NodeID;
    var db' := Database.UpsertNode(db, node, shortName, longName);
    forall i | 0 <= i < |db'.positions| ensures CallsignOK(db', db'.positions[i]) {
      assert CallsignOK(db, db.positions[i]);
    }
  }

  lemma ArchiveCallsigns(s: Settings, db: Tables, packet: Packet, p: Position, enqueue: bool, now: Instant)
    requires CallsignsOK(db) && DirectoryOK(s, db)
    ensures CallsignsOK(Apply(db, ArchiveOp(packet, Some(Backfilled(s, db, p)), enqueue, now)))
  {
    hide NodeID, PositionKey, FormatTime, FindKey, OnEarth;
    var db' := Apply(db, ArchiveOp(packet, Some(Backfilled(s, db, p)), enqueue, now));
    assert db'.nodes == db.nodes;
    forall i | 0 <= i < |db'.positions| ensures CallsignOK(db', db'.positions[i]) {
      if i < |db.positions| {
        assert CallsignOK(db, db.positions[i]);
      }
    }
  }

  lemma HappenKeepsCallsigns(s: Settings, db: Tables, a: Activity)
    requires CallsignsOK(db) && DirectoryOK(s, db)
    ensures CallsignsOK(Happen(s, db, a)) && DirectoryOK(s, Happen(s, db, a))
  {
    hide Apply, NodeID, Handled, Remembered;
    match a
    case Call(message, t, progress) => CallKeepsCallsigns(s, db, message, t);
    case Worker(op) => if IsWorkerOp(op) { WorkerKeepsIntake(db, op); }
  }

  /** The delivery worker touches no packet, node or position. */
  lemma WorkerKeepsIntake(db: Tables, op: Op)
    requires IsWorkerOp(op)
    ensures Apply(db, op).packets == db.packets && Apply(db, op).nodes == db.nodes
    ensures Apply(db, op).positions == db.positions
  {
    hide FormatTime;
  }

  lemma CallKeepsCallsigns(s: Settings, db: Tables, message: Message, t: Moment)
    requires CallsignsOK(db) && DirectoryOK(s, db)
    ensures CallsignsOK(Remembered(s, db, message)) && DirectoryOK(s, Remembered(s, db, message))
    ensures CallsignsOK(Handled(s, db, message, t)) && DirectoryOK(s, Handled(s, db, message, t))
  {
    var db1 := Remembered(s, db, message);
    RememberedCallsigns(s, db, message);
    hide Remembered, CallsignsOK;
    if message.PacketMessage? {
      ArchivalCallsigns(s, db1, message.packet, t);
    }
  }

  lemma RememberedCallsigns(s: Settings, db: Tables, message: Message)
    requires CallsignsOK(db) && DirectoryOK(s, db)
    ensures CallsignsOK(Remembered(s, db, message)) && DirectoryOK(s, Remembered(s, db, message))
  {
    hide CallsignsOK, Database.UpsertNode, CarriedUser;
    match message
    case NodeInfo(num, user) => if user.Some? { UpsertCallsigns(db, num, user.value.shortName, user.value.longName); }
    case PacketMessage(packet) =>
      var user := CarriedUser(s, packet);
      if user.Some? { UpsertCallsigns(db, packet.from, user.value.shortName, user.value.longName); }
    case _ =>
  }

  lemma ArchivalCallsigns(s: Settings, db: Tables, packet: MeshPacket, t: Moment)
    requires CallsignsOK(db) && DirectoryOK(s, db)
    ensures CallsignsOK(Apply(db, Archival(s, db, packet, t))) && DirectoryOK(s, Apply(db, Archival(s, db, packet, t)))
  {
    hide NodeID, PositionKey, FormatTime, FindKey, OnEarth, Decode, Backfilled;
    var (record, position) := Decode(s.codec, packet, t.receivedAt, s.decodePositionApp);
    if position.Some? {
      ArchiveCallsigns(s, db, record, position.value, s.enqueue, t.enqueuedAt);
    }
  }

  /** In every history of an empty store, a position shows its bare node identifier only while the node
      has no name in the directory, or exactly that name. */
  lemma CallsignInvariant(s: Settings, activities: seq<Activity>)
    ensures CallsignsOK(History(s, EMPTY, activities))
  {
    CallsignsPersist(s, EMPTY, activities);
  }

  lemma {:induction false} CallsignsPersist(s: Settings, db: Tables, activities: seq<Activity>)
    requires CallsignsOK(db) && DirectoryOK(s, db)
    ensures CallsignsOK(History(s, db, activities))
    decreases |activities|
  {
    hide Happen, CallsignsOK, DirectoryOK;
    if activities != [] {
      HappenKeepsCallsigns(s, db, activities[0]);
      CallsignsPersist(s, Happen(s, db, activities[0]), activities[1..]);
    }
  }

  // ------------------------------------------------------------------ repeated reports of one fix

  /** Any two port 3 reports of the same node, coordinates and non-zero fix time end up as one position:
      whatever their receive and radio times, and whatever happens in between, archiving the second adds
      neither a position nor a delivery. */
  lemma RepeatedReports(s: Settings, db: Tables, db1: Tables, receipt: Receipt, ops: seq<Op>, first: MeshPacket,
                        second: MeshPacket, t: Moment, t': Moment, latitude: int, longitude: int, time: uint32)
    requires Valid(db) && s.decodePositionApp && time != 0
    requires first.from == second.from
    requires ReportsFix(s.codec, first, latitude, longitude, time) && ReportsFix(s.codec, second, latitude, longitude, time)
    requires var op := Archival(s, db, first, t);
             op.position.Some? && Database.Archive(db, op.packet, op.position, op.enqueue, op.now) == Some((db1, receipt))
    ensures var db2 := RunOps(db1, ops);
            var op := Archival(s, db2, second, t');
            var r := Database.Archive(db2, op.packet, op.position, op.enqueue, op.now);
            && r.Some? && r.value.1.positionID == receipt.positionID
            && r.value.0.positions == db2.positions && r.value.0.deliveries == db2.deliveries
  {
    FixKey(s, db, first, t, latitude, longitude, time);
    FixKey(s, RunOps(db1, ops), second, t', latitude, longitude, time);
    var op, op' := Archival(s, db, first, t), Archival(s, RunOps(db1, ops), second, t');
    hide Archival, Valid, Database.Archive, RunOps, PositionKey, ReportsFix;
    SameFixSamePosition(db, db1, receipt, ops, op.packet, op.position.value, op'.packet, op'.position.value,
                        op.enqueue, op'.enqueue, op.now, op'.now);
  }

  lemma FixKey(s: Settings, db: Tables, packet: MeshPacket, t: Moment, latitude: int, longitude: int, time: uint32)
    requires s.decodePositionApp && time != 0 && ReportsFix(s.codec, packet, latitude, longitude, time)
    ensures var position := Archival(s, db, packet, t).position;
            && (position.Some? <==> !(latitude == 0 && longitude == 0) && OnEarth(latitude, longitude))
            && (position.Some? ==>
                  PositionKey(position.value) == KeyText(packet.from, latitude, longitude, FormatTime(UnixTime(time))))
  {
    FixDecides(s.codec, packet, t.receivedAt, latitude, longitude, time);
    hide Decode, FormatTime, KeyText, NodeID, ReportsFix, OnEarth;
  }
}
