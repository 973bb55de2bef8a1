/** `Positions` (internal/store/store.go): the latest position of every node. */
module LatestPositions {
  import opened Wrappers
  import opened Text
  import opened Timestamp
  import opened Model
  import opened Database
  import opened Query
  import opened StoreRuns

  // ------------------------------------------------------------------ the query

  function Times(rows: seq<PositionRow>): (times: seq<string>)
    ensures |times| == |rows|
  {
    seq(|rows|, i requires 0 <= i < |rows| => rows[i].sourceTime)
  }

  /** The NOT EXISTS clause: no row of the same node is newer, by source time and then by id. */
  predicate IsLatest(rows: seq<PositionRow>, i: nat)
    requires i < |rows|
  {
    forall j | 0 <= j < |rows| :: rows[j].sourceNode == rows[i].sourceNode ==> !Precedes(Times(rows), i, j)
  }

  function Keep(rows: seq<PositionRow>): (keep: seq<bool>)
    ensures |keep| == |rows|
  {
    seq(|rows|, i requires 0 <= i < |rows| => IsLatest(rows, i))
  }

  /** The row numbers of the answer, counted from 0. */
  function LatestRows(rows: seq<PositionRow>): (r: seq<nat>)
    ensures forall a | 0 <= a < |r| :: r[a] < |rows|
  {
    OrderedBy(Times(rows), Keep(rows))
  }

  function Positions(db: Tables): seq<Position> {
    var r := LatestRows(db.positions);
    seq(|r|, a requires 0 <= a < |r| => ReadPosition(db.positions[r[a]], r[a] + 1))
  }

  /** The answer holds exactly the latest rows, in row order, and no node twice. */
  lemma LatestExact(rows: seq<PositionRow>)
    ensures forall k: nat :: k in LatestRows(rows) <==> k < |rows| && IsLatest(rows, k)
    ensures Ordered(Times(rows), LatestRows(rows))
    ensures forall a, b | 0 <= a < b < |LatestRows(rows)| ::
              rows[LatestRows(rows)[a]].sourceNode != rows[LatestRows(rows)[b]].sourceNode
  {
    SelectExact(Times(rows), Keep(rows), |rows|);
    var r := LatestRows(rows);
    hide TextLess, Select, Times;
    assert forall a | 0 <= a < |r| :: r[a] in r;
    forall a, b | 0 <= a < b < |r| ensures rows[r[a]].sourceNode != rows[r[b]].sourceNode {
      assert Precedes(Times(rows), r[a], r[b]) && IsLatest(rows, r[a]);
    }
  }

  // ------------------------------------------------------------------ the specification: a map kept up to date

  datatype Entry = Entry(id: nat, row: PositionRow)

  type LatestMap = map<uint32, Entry>

  /** A new position replaces the kept one unless its source time is less, as text. */
  function MapInsert(m: LatestMap, id: nat, row: PositionRow): LatestMap {
    if row.sourceNode in m && TextLess(row.sourceTime, m[row.sourceNode].row.sourceTime) then m
    else m[row.sourceNode := Entry(id, row)]
  }

  /** A name that became known replaces a bare node id. */
  function MapRename(m: LatestMap, node: uint32, callsign: string): LatestMap {
    if callsign == "" then m
    else map n | n in m :: m[n].(row := Renamed(m[n].row, node, callsign))
  }

  function MapApply(m: LatestMap, db: Tables, op: Op): LatestMap {
    match op
    case ArchiveOp(_, _, _, _) =>
      var db' := Apply(db, op);
      if |db'.positions| > |db.positions| then MapInsert(m, |db'.positions|, db'.positions[|db'.positions| - 1]) else m
    case UpsertOp(node, shortName, longName) =>
      MapRename(m, node, EffectiveName(NodeRow(TrimSpace(shortName), TrimSpace(longName))))
    case _ => m
  }

  function MapRun(m: LatestMap, db: Tables, ops: seq<Op>): LatestMap
    decreases |ops|
  {
    if ops == [] then m else MapRun(MapApply(m, db, ops[0]), Apply(db, ops[0]), ops[1..])
  }

  // ------------------------------------------------------------------ the query computes the map

  predicate Holds(e: Entry, rows: seq<PositionRow>, n: uint32) {
    1 <= e.id <= |rows| && e.row == rows[e.id - 1] && e.row.sourceNode == n && IsLatest(rows, e.id - 1)
  }

  /** The map holds the latest row of every node that has one. */
  ghost predicate Mirrors(m: LatestMap, rows: seq<PositionRow>) {
    && (forall i | 0 <= i < |rows| :: rows[i].sourceNode in m)
    && (forall n | n in m :: Holds(m[n], rows, n))
  }

  lemma LatestUnique(rows: seq<PositionRow>, i: nat, j: nat)
    requires i < |rows| && j < |rows| && rows[i].sourceNode == rows[j].sourceNode
    requires IsLatest(rows, i) && IsLatest(rows, j)
    ensures i == j
  {
    PrecedesTotal(Times(rows), i, j);
  }

  lemma PrecedesAppend(rows: seq<PositionRow>, row: PositionRow, i: nat, j: nat)
    requires i < |rows| && j < |rows|
    ensures Precedes(Times(rows + [row]), i, j) == Precedes(Times(rows), i, j)
  {
    hide TextLess;
  }

  /** A latest row stays latest unless the new row is of its node and not earlier. */
  lemma StaysLatest(rows: seq<PositionRow>, row: PositionRow, i: nat)
    requires i < |rows| && IsLatest(rows, i)
    requires rows[i].sourceNode == row.sourceNode ==> TextLess(row.sourceTime, rows[i].sourceTime)
    ensures IsLatest(rows + [row], i)
  {
    TextLessTotal(row.sourceTime, rows[i].sourceTime);
    forall j | 0 <= j < |rows| ensures Precedes(Times(rows + [row]), i, j) == Precedes(Times(rows), i, j) {
      PrecedesAppend(rows, row, i, j);
    }
    hide TextLess;
  }

  lemma NewestIsLatest(rows: seq<PositionRow>, row: PositionRow)
    requires forall i | 0 <= i < |rows| && rows[i].sourceNode == row.sourceNode ::
               !TextLess(row.sourceTime, rows[i].sourceTime)
    ensures IsLatest(rows + [row], |rows|)
  {
    forall j | 0 <= j <= |rows| ensures !(j == |rows| && TextLess(row.sourceTime, (rows + [row])[j].sourceTime)) {
      TextLessTotal(row.sourceTime, row.sourceTime);
    }
    hide TextLess;
  }

  /** No row of a node is later than its latest. */
  lemma LatestBounds(rows: seq<PositionRow>, kept: nat, row: PositionRow, j: nat)
    requires kept < |rows| && j < |rows| && IsLatest(rows, kept) && rows[kept].sourceNode == rows[j].sourceNode
    requires !TextLess(row.sourceTime, rows[kept].sourceTime)
    ensures !TextLess(row.sourceTime, rows[j].sourceTime)
  {
    assert !Precedes(Times(rows), kept, j);
    TextLessTotal(row.sourceTime, rows[kept].sourceTime);
    if TextLess(row.sourceTime, rows[j].sourceTime) && TextLess(rows[kept].sourceTime, row.sourceTime) {
      TextLessTransitive(rows[kept].sourceTime, row.sourceTime, rows[j].sourceTime);
    }
    hide TextLess;
  }

  lemma NewestHolds(m: LatestMap, rows: seq<PositionRow>, row: PositionRow)
    requires Mirrors(m, rows)
    requires row.sourceNode in m ==> !TextLess(row.sourceTime, m[row.sourceNode].row.sourceTime)
    ensures Holds(Entry(|rows| + 1, row), rows + [row], row.sourceNode)
  {
    hide TextLess, IsLatest;
    forall i | 0 <= i < |rows| && rows[i].sourceNode == row.sourceNode
      ensures !TextLess(row.sourceTime, rows[i].sourceTime)
    {
      assert Holds(m[row.sourceNode], rows, row.sourceNode);
      LatestBounds(rows, m[row.sourceNode].id - 1, row, i);
    }
    NewestIsLatest(rows, row);
  }

  lemma StillHolds(e: Entry, rows: seq<PositionRow>, row: PositionRow, n: uint32)
    requires Holds(e, rows, n) && (n == row.sourceNode ==> TextLess(row.sourceTime, e.row.sourceTime))
    ensures Holds(e, rows + [row], n)
  {
    hide TextLess, IsLatest;
    StaysLatest(rows, row, e.id - 1);
  }

  lemma InsertMirrors(m: LatestMap, rows: seq<PositionRow>, row: PositionRow)
    requires Mirrors(m, rows)
    ensures Mirrors(MapInsert(m, |rows| + 1, row), rows + [row])
  {
    var m' := MapInsert(m, |rows| + 1, row);
    hide TextLess;
    forall n | n in m' ensures Holds(m'[n], rows + [row], n) {
      if m'[n] == Entry(|rows| + 1, row) {
        NewestHolds(m, rows, row);
      } else {
        StillHolds(m[n], rows, row, n);
      }
    }
    hide Holds;
  }

  lemma RenameMirrors(m: LatestMap, rows: seq<PositionRow>, rows': seq<PositionRow>, node: uint32, callsign: string)
    requires Mirrors(m, rows) && |rows'| == |rows|
    requires forall i | 0 <= i < |rows| :: rows'[i] == Renamed(rows[i], node, callsign)
    ensures Mirrors(map n | n in m :: m[n].(row := Renamed(m[n].row, node, callsign)), rows')
  {
    hide Holds, Renamed;
    forall i | 0 <= i < |rows| ensures rows'[i].sourceNode == rows[i].sourceNode && rows'[i].sourceTime == rows[i].sourceTime {
      RenamedKeeps(rows[i], node, callsign);
    }
    forall n | n in m ensures Holds(m[n].(row := Renamed(m[n].row, node, callsign)), rows', n) {
      assert Holds(m[n], rows, n);
      RenamedHolds(m[n], rows, rows', node, callsign, n);
    }
  }

  lemma RenamedKeeps(row: PositionRow, node: uint32, callsign: string)
    ensures Renamed(row, node, callsign).sourceNode == row.sourceNode
    ensures Renamed(row, node, callsign).sourceTime == row.sourceTime
  {
    hide NodeID;
  }

  lemma RenamedHolds(e: Entry, rows: seq<PositionRow>, rows': seq<PositionRow>, node: uint32, callsign: string, n: uint32)
    requires Holds(e, rows, n) && |rows'| == |rows|
    requires forall i | 0 <= i < |rows| :: rows'[i] == Renamed(rows[i], node, callsign)
    requires forall i | 0 <= i < |rows| ::
               rows'[i].sourceNode == rows[i].sourceNode && rows'[i].sourceTime == rows[i].sourceTime
    ensures Holds(e.(row := Renamed(e.row, node, callsign)), rows', n)
  {
    hide TextLess, NodeID, Precedes, Renamed;
    assert Times(rows') == Times(rows);
  }

  lemma ArchivePositions(db: Tables, packet: Packet, position: Option<Position>, enqueue: bool, now: Instant)
    ensures var db' := Apply(db, ArchiveOp(packet, position, enqueue, now));
            || db'.positions == db.positions
            || (|db'.positions| == |db.positions| + 1
                && db'.positions == db.positions + [db'.positions[|db.positions|]])
  {
    hide FormatTime, PositionKey, FindKey;
  }

  lemma ArchiveMirrors(m: LatestMap, db: Tables, op: Op)
    requires Mirrors(m, db.positions) && op.ArchiveOp?
    ensures Mirrors(MapApply(m, db, op), Apply(db, op).positions)
  {
    hide Mirrors, MapInsert, Apply;
    ArchivePositions(db, op.packet, op.position, op.enqueue, op.now);
    var db' := Apply(db, op);
    if |db'.positions| > |db.positions| {
      InsertMirrors(m, db.positions, db'.positions[|db.positions|]);
    }
  }

  lemma UpsertMirrors(m: LatestMap, db: Tables, op: Op)
    requires Mirrors(m, db.positions) && op.UpsertOp?
    ensures Mirrors(MapApply(m, db, op), Apply(db, op).positions)
  {
    hide Mirrors, NodeID, TrimSpace, Renamed;
    var callsign := EffectiveName(NodeRow(TrimSpace(op.shortName), TrimSpace(op.longName)));
    if callsign != "" {
      RenameMirrors(m, db.positions, Apply(db, op).positions, op.node, callsign);
    }
  }

  lemma ApplyMirrors(m: LatestMap, db: Tables, op: Op)
    requires Mirrors(m, db.positions)
    ensures Mirrors(MapApply(m, db, op), Apply(db, op).positions)
  {
    hide Mirrors, MapInsert, MapRename, Archive, UpsertNode, FormatTime;
    if op.ArchiveOp? {
      ArchiveMirrors(m, db, op);
    } else if op.UpsertOp? {
      UpsertMirrors(m, db, op);
    }
  }

  lemma {:induction false} RunMirrors(m: LatestMap, db: Tables, ops: seq<Op>)
    requires Mirrors(m, db.positions)
    ensures Mirrors(MapRun(m, db, ops), RunOps(db, ops).positions)
    decreases |ops|
  {
    hide Mirrors, MapApply, Apply;
    if ops != [] {
      ApplyMirrors(m, db, ops[0]);
      RunMirrors(MapApply(m, db, ops[0]), Apply(db, ops[0]), ops[1..]);
    }
  }

  /** In row order, and no node twice. */
  predicate OnePerNode(r: seq<nat>, rows: seq<PositionRow>) {
    && Rows(Times(rows), r) && Ordered(Times(rows), r)
    && forall a, b | 0 <= a < b < |r| :: rows[r[a]].sourceNode != rows[r[b]].sourceNode
  }

  predicate EachIsEntry(r: seq<nat>, rows: seq<PositionRow>, m: LatestMap) {
    forall k | k in r :: k < |rows| && rows[k].sourceNode in m && m[rows[k].sourceNode] == Entry(k + 1, rows[k])
  }

  predicate EachAnswered(r: seq<nat>, rows: seq<PositionRow>, m: LatestMap) {
    && (forall n | n in m :: m[n].id >= 1 && m[n].id - 1 in r)
    && (forall i | 0 <= i < |rows| :: rows[i].sourceNode in m)
  }

  lemma EntryIsAnswered(m: LatestMap, rows: seq<PositionRow>, n: uint32)
    requires n in m && Holds(m[n], rows, n)
    ensures m[n].id >= 1 && m[n].id - 1 in LatestRows(rows)
  {
    LatestExact(rows);
    hide IsLatest, LatestRows, Times, Ordered;
  }

  lemma AnswerIsEntry(m: LatestMap, rows: seq<PositionRow>, k: nat)
    requires k in LatestRows(rows) && k < |rows| && rows[k].sourceNode in m
    requires Holds(m[rows[k].sourceNode], rows, rows[k].sourceNode)
    ensures m[rows[k].sourceNode] == Entry(k + 1, rows[k])
  {
    LatestExact(rows);
    hide IsLatest, LatestRows, Times, Ordered;
    LatestUnique(rows, k, m[rows[k].sourceNode].id - 1);
  }

  lemma AnswersAreEntries(m: LatestMap, rows: seq<PositionRow>)
    requires Mirrors(m, rows)
    ensures EachIsEntry(LatestRows(rows), rows, m)
  {
    hide LatestRows, Holds;
    forall k | k in LatestRows(rows)
      ensures k < |rows| && rows[k].sourceNode in m && m[rows[k].sourceNode] == Entry(k + 1, rows[k])
    {
      LatestInRange(rows, k);
      AnswerIsEntry(m, rows, k);
    }
  }

  lemma LatestInRange(rows: seq<PositionRow>, k: nat)
    requires k in LatestRows(rows)
    ensures k < |rows|
  {
    LatestExact(rows);
    hide LatestRows, IsLatest;
  }

  lemma EntriesAreAnswered(m: LatestMap, rows: seq<PositionRow>)
    requires Mirrors(m, rows)
    ensures EachAnswered(LatestRows(rows), rows, m)
  {
    hide LatestRows, Holds;
    forall n | n in m ensures m[n].id >= 1 && m[n].id - 1 in LatestRows(rows) {
      EntryIsAnswered(m, rows, n);
    }
  }

  lemma AnswersInOrder(rows: seq<PositionRow>)
    ensures OnePerNode(LatestRows(rows), rows)
  {
    LatestExact(rows);
    hide LatestRows, IsLatest, Ordered, Times;
  }

  /** After any transactions from an empty store, `Positions` answers with exactly one row per node that
      has positions, ordered by (source_time, id): the entry of the map for that node. */
  lemma LatestViewIsMap(ops: seq<Op>)
    ensures var rows, m := RunOps(EMPTY, ops).positions, MapRun(map[], EMPTY, ops);
            && OnePerNode(LatestRows(rows), rows)
            && EachIsEntry(LatestRows(rows), rows, m)
            && EachAnswered(LatestRows(rows), rows, m)
  {
    var rows, m := RunOps(EMPTY, ops).positions, MapRun(map[], EMPTY, ops);
    RunMirrors(map[], EMPTY, ops);
    hide RunOps, MapRun, Mirrors, OnePerNode, EachIsEntry, EachAnswered, LatestRows;
    AnswersInOrder(rows);
    AnswersAreEntries(m, rows);
    EntriesAreAnswered(m, rows);
  }

  // ------------------------------------------------------------------ the answer itself

  /** No row of the same node is newer, by source time and then by id. */
  predicate Newest(rows: seq<PositionRow>, id: nat)
    requires 1 <= id <= |rows|
  {
    forall j | 0 <= j < |rows| && rows[j].sourceNode == rows[id - 1].sourceNode ::
      && !TextLess(rows[id - 1].sourceTime, rows[j].sourceTime)
      && (rows[j].sourceTime == rows[id - 1].sourceTime ==> j < id)
  }

  /** Each position shows a newest row, column by column. */
  predicate ShowNewest(rows: seq<PositionRow>, ps: seq<Position>) {
    forall i | 0 <= i < |ps| ::
      var id := ps[i].packetID; 1 <= id <= |rows| && Newest(rows, id) && Shows(ps[i], rows[id - 1], id)
  }

  predicate ListsID(ps: seq<Position>, id: nat) {
    exists i | 0 <= i < |ps| :: ps[i].packetID == id
  }

  predicate ListAllNewest(rows: seq<PositionRow>, ps: seq<Position>) {
    forall id | 1 <= id <= |rows| && Newest(rows, id) :: ListsID(ps, id)
  }

  predicate InRowOrder(rows: seq<PositionRow>, ps: seq<Position>)
    requires forall i | 0 <= i < |ps| :: 1 <= ps[i].packetID <= |rows|
  {
    forall i, j | 0 <= i < j < |ps| ::
      var s, t := rows[ps[i].packetID - 1].sourceTime, rows[ps[j].packetID - 1].sourceTime;
      TextLess(s, t) || (s == t && ps[i].packetID < ps[j].packetID)
  }

  /** A list of positions shows the newest row of every node, column by column, in the order of source time
      and id. */
  predicate LatestView(rows: seq<PositionRow>, ps: seq<Position>) {
    ShowNewest(rows, ps) && ListAllNewest(rows, ps) && InRowOrder(rows, ps)
  }

  lemma NewestIsIsLatest(rows: seq<PositionRow>, id: nat)
    requires 1 <= id <= |rows|
    ensures Newest(rows, id) <==> IsLatest(rows, id - 1)
  {
    hide TextLess;
    if IsLatest(rows, id - 1) {
      forall j | 0 <= j < |rows| && rows[j].sourceNode == rows[id - 1].sourceNode
        ensures !TextLess(rows[id - 1].sourceTime, rows[j].sourceTime)
        ensures rows[j].sourceTime == rows[id - 1].sourceTime ==> j < id
      {
        assert !Precedes(Times(rows), id - 1, j);
      }
    }
  }

  lemma PositionAt(db: Tables, i: nat)
    requires i < |LatestRows(db.positions)| && Readable(db.positions[LatestRows(db.positions)[i]])
    ensures var id, p := LatestRows(db.positions)[i] + 1, Positions(db)[i];
            p.packetID == id && Newest(db.positions, id) && Shows(p, db.positions[id - 1], id)
  {
    hide LatestRows, ReadPosition, Shows, Readable, IsLatest, Newest;
    var k := LatestRows(db.positions)[i];
    LatestExact(db.positions);
    assert k in LatestRows(db.positions);
    ReadShows(db.positions[k], k + 1);
    ShowsID(Positions(db)[i], db.positions[k], k + 1);
    NewestIsIsLatest(db.positions, k + 1);
  }

  lemma NewestIsListed(db: Tables, ps: seq<Position>, id: nat)
    requires 1 <= id <= |db.positions| && Newest(db.positions, id)
    requires |ps| == |LatestRows(db.positions)|
    requires forall i | 0 <= i < |ps| :: ps[i].packetID == LatestRows(db.positions)[i] + 1
    ensures ListsID(ps, id)
  {
    hide LatestRows, IsLatest, Newest, Times, Query.Ordered;
    LatestExact(db.positions);
    NewestIsIsLatest(db.positions, id);
    var k: nat := id - 1;
    assert k in LatestRows(db.positions);
    var i :| 0 <= i < |LatestRows(db.positions)| && LatestRows(db.positions)[i] == k;
    assert ps[i].packetID == id;
  }

  lemma RowsInOrder(db: Tables, ps: seq<Position>)
    requires |ps| == |LatestRows(db.positions)|
    requires forall i | 0 <= i < |ps| :: ps[i].packetID == LatestRows(db.positions)[i] + 1
    ensures InRowOrder(db.positions, ps)
  {
    hide LatestRows, IsLatest, TextLess;
    LatestExact(db.positions);
    var rows, r := db.positions, LatestRows(db.positions);
    forall i, j | 0 <= i < j < |ps|
      ensures TextLess(rows[r[i]].sourceTime, rows[r[j]].sourceTime)
              || (rows[r[i]].sourceTime == rows[r[j]].sourceTime && r[i] < r[j])
    {
      assert Precedes(Times(rows), r[i], r[j]);
    }
  }

  lemma PositionsAreView(db: Tables)
    requires forall a | 0 <= a < |LatestRows(db.positions)| :: Readable(db.positions[LatestRows(db.positions)[a]])
    ensures LatestView(db.positions, Positions(db))
  {
    hide LatestRows, Shows, Readable, Newest, InRowOrder, ListsID;
    PositionsCount(db);
    hide Positions;
    var ps := Positions(db);
    forall i | 0 <= i < |ps|
      ensures var id := ps[i].packetID;
              id == LatestRows(db.positions)[i] + 1 && Newest(db.positions, id) && Shows(ps[i], db.positions[id - 1], id)
    {
      PositionAt(db, i);
    }
    RowsInOrder(db, ps);
    forall id | 1 <= id <= |db.positions| && Newest(db.positions, id) ensures ListsID(ps, id) {
      NewestIsListed(db, ps, id);
    }
  }

  lemma PositionsCount(db: Tables)
    ensures |Positions(db)| == |LatestRows(db.positions)|
  {
  }

  lemma ShowsID(p: Position, row: PositionRow, id: nat)
    requires Shows(p, row, id)
    ensures p.packetID == id && p.sourceNode == row.sourceNode
  {
    hide ParseTime;
  }

  predicate NoNodeTwice(ps: seq<Position>) {
    forall i, j | 0 <= i < j < |ps| :: ps[i].sourceNode != ps[j].sourceNode
  }

  /** Each position shows its node's entry of the map. */
  predicate ShowsEntries(m: LatestMap, ps: seq<Position>) {
    forall i | 0 <= i < |ps| ::
      var n := ps[i].sourceNode; n in m && Shows(ps[i], m[n].row, m[n].id)
  }

  lemma NewestUnique(rows: seq<PositionRow>, i: nat, j: nat)
    requires 1 <= i <= |rows| && 1 <= j <= |rows| && Newest(rows, i) && Newest(rows, j)
    requires rows[i - 1].sourceNode == rows[j - 1].sourceNode
    ensures i == j
  {
    NewestIsIsLatest(rows, i);
    NewestIsIsLatest(rows, j);
    hide IsLatest, Newest;
    LatestUnique(rows, i - 1, j - 1);
  }

  lemma {:induction false} CountNodes(ps: seq<Position>)
    requires NoNodeTwice(ps)
    ensures |set i | 0 <= i < |ps| :: ps[i].sourceNode| == |ps|
  {
    if ps != [] {
      var init, last := ps[..|ps| - 1], ps[|ps| - 1].sourceNode;
      CountNodes(init);
      assert forall i | 0 <= i < |init| :: init[i] == ps[i];
      var before := set i | 0 <= i < |init| :: init[i].sourceNode;
      assert (set i | 0 <= i < |ps| :: ps[i].sourceNode) == before + {last};
    }
  }

  lemma ViewShowsEntries(rows: seq<PositionRow>, m: LatestMap, ps: seq<Position>)
    requires LatestView(rows, ps) && Mirrors(m, rows)
    ensures ShowsEntries(m, ps) && NoNodeTwice(ps)
  {
    hide Newest, Shows, TextLess, IsLatest;
    forall i | 0 <= i < |ps|
      ensures var n := ps[i].sourceNode; n in m && Shows(ps[i], m[n].row, m[n].id) && n == rows[ps[i].packetID - 1].sourceNode
    {
      var id := ps[i].packetID;
      ShowsID(ps[i], rows[id - 1], id);
      var n := ps[i].sourceNode;
      assert Holds(m[n], rows, n);
      NewestIsIsLatest(rows, m[n].id);
      NewestUnique(rows, id, m[n].id);
    }
    forall i, j | 0 <= i < j < |ps| ensures ps[i].sourceNode != ps[j].sourceNode {
      if ps[i].sourceNode == ps[j].sourceNode {
        NewestUnique(rows, ps[i].packetID, ps[j].packetID);
        TextLessTotal(rows[ps[i].packetID - 1].sourceTime, rows[ps[i].packetID - 1].sourceTime);
      }
    }
  }

  lemma EntryIsListed(rows: seq<PositionRow>, e: Entry, ps: seq<Position>, n: uint32)
    requires LatestView(rows, ps) && Holds(e, rows, n)
    ensures exists i | 0 <= i < |ps| :: ps[i].sourceNode == n
  {
    hide Newest, Shows, IsLatest, InRowOrder;
    NewestIsIsLatest(rows, e.id);
    assert ListsID(ps, e.id);
    var i :| 0 <= i < |ps| && ps[i].packetID == e.id;
    ShowsID(ps[i], rows[e.id - 1], e.id);
  }

  lemma ViewIsComplete(rows: seq<PositionRow>, m: LatestMap, ps: seq<Position>)
    requires LatestView(rows, ps) && Mirrors(m, rows) && ShowsEntries(m, ps) && NoNodeTwice(ps)
    ensures |ps| == |m|
  {
    hide LatestView, Holds, Shows;
    var nodes := set i | 0 <= i < |ps| :: ps[i].sourceNode;
    CountNodes(ps);
    forall n | n in m ensures n in nodes {
      assert Holds(m[n], rows, n);
      EntryIsListed(rows, m[n], ps, n);
    }
    assert nodes == m.Keys;
  }

  /** After any transactions from an empty store, a list that is the latest view of the table has exactly one
      position for each node of the map, showing every column of that node's entry, in the order of source
      time and id. */
  lemma ViewIsMap(ops: seq<Op>, ps: seq<Position>)
    requires LatestView(RunOps(EMPTY, ops).positions, ps)
    ensures var rows, m := RunOps(EMPTY, ops).positions, MapRun(map[], EMPTY, ops);
            && |ps| == |m| && NoNodeTwice(ps) && ShowsEntries(m, ps)
            && (forall i, j | 0 <= i < j < |ps| ::
                  var a, b := m[ps[i].sourceNode], m[ps[j].sourceNode];
                  TextLess(a.row.sourceTime, b.row.sourceTime) || (a.row.sourceTime == b.row.sourceTime && a.id < b.id))
  {
    hide RunOps, MapRun, TextLess, Newest, Shows, IsLatest, ListAllNewest;
    var rows, m := RunOps(EMPTY, ops).positions, MapRun(map[], EMPTY, ops);
    RunMirrors(map[], EMPTY, ops);
    ViewShowsEntries(rows, m, ps);
    ViewIsComplete(rows, m, ps);
    forall i | 0 <= i < |ps|
      ensures var e := m[ps[i].sourceNode]; e.id == ps[i].packetID && e.row == rows[ps[i].packetID - 1]
    {
      var n := ps[i].sourceNode;
      assert n in m && Holds(m[n], rows, n);
      ShowsID(ps[i], m[n].row, m[n].id);
    }
  }
}
