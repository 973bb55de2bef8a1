/** What every run of the outbox keeps, in whatever order positions arrive. */
module OutboxSafety {
  import opened Wrappers
  import opened Text
  import opened Timestamp
  import opened Model
  import opened Database
  import opened Deliveries
  import opened PositionFilter
  import opened Outbox

  // ------------------------------------------------------------------ the invariant

  /** A delivery still describes its row; only the callsign may have been renamed since. */
  predicate Matches(db: Tables, d: Delivery)
    requires Linked(db)
  {
    && IsDelivery(db, d.id)
    && var row := PositionFor(db, d.id);
       && d.position.sourceNode == row.sourceNode
       && d.position.latitude == row.latitude && d.position.longitude == row.longitude
       && d.position.sourceTime == StoredTime(row.sourceTime)
  }

  /** What is left of the snapshot: pending deliveries of different nodes. */
  predicate BatchOK(db: Tables, batch: seq<Delivery>)
    requires Linked(db)
  {
    && (forall i | 0 <= i < |batch| :: IsPending(db, batch[i].id) && Matches(db, batch[i]))
    && (forall i, j | 0 <= i < j < |batch| :: batch[i].position.sourceNode != batch[j].position.sourceNode)
  }

  /** Every key of the memo is a pending delivery whose node the filter knows. */
  predicate MemoOK(db: Tables, f: Filter)
    requires Linked(db)
  {
    forall id | id in f.prepared ::
      IsPending(db, id) && f.prepared[id].position.sourceNode == NodeAt(db, id) && NodeAt(db, id) in f.nodes
  }

  predicate Sound(s: World) {
    Valid(s.db) && Linked(s.db) && BatchOK(s.db, s.batch) && MemoOK(s.db, s.filter) && !s.crashed
  }

  lemma FirstIsPending(s: World)
    requires Sound(s) && s.batch != []
    ensures IsPending(s.db, s.batch[0].id) && Matches(s.db, s.batch[0])
  {
    hide Valid, MemoOK, Matches;
  }

  // ------------------------------------------------------------------ one pass of drain's loop

  datatype Outcome = Aborted | Deferred | Finished

  function OutcomeOf(r: Filtered, turn: Turn): Outcome {
    if !turn.stored then Aborted else if r.publish && !turn.published then Deferred else Finished
  }

  /** Only one delivery's row changes, and not which position it is for. */
  predicate Touches(db: Tables, db': Tables, id: nat, state: DeliveryState)
    requires IsDelivery(db, id)
  {
    && db'.positions == db.positions && db'.packets == db.packets
    && |db'.deliveries| == |db.deliveries|
    && (forall i | 0 <= i < |db.deliveries| && i != id - 1 :: db'.deliveries[i] == db.deliveries[i])
    && db'.deliveries[id - 1].positionID == db.deliveries[id - 1].positionID
    && db'.deliveries[id - 1].state == state
  }

  /** The history after the filter and the publisher were consulted. */
  function LogAfter(s: World, r: Filtered, turn: Turn): seq<Event>
    requires s.batch != []
  {
    var d := s.batch[0];
    var log := if d.id in s.filter.prepared then s.log else s.log + [Prepared(d)];
    if r.publish then log + [Attempted(d.id, r.position, turn.published)] else log
  }

  /** What a pass does, outcome by outcome. */
  predicate Passes(cfg: FilterConfig, s: World, turn: Turn, s': World)
    requires s.batch != [] && IsDelivery(s.db, s.batch[0].id)
  {
    var d := s.batch[0];
    var (f, r) := Prepare(cfg, s.filter, d);
    && !s'.crashed
    && CanComplete(f, d.id) && f.prepared[d.id] == r
    && match OutcomeOf(r, turn)
       case Aborted =>
         s'.db == s.db && s'.filter == f && s'.batch == [] && s'.log == LogAfter(s, r, turn)
       case Deferred =>
         Touches(s.db, s'.db, d.id, Pending) && s'.filter == f && s'.batch == s.batch[1..]
         && s'.log == LogAfter(s, r, turn)
       case Finished =>
         Touches(s.db, s'.db, d.id, Delivered) && s'.filter == Complete(f, d.id, r.publish)
         && s'.batch == s.batch[1..] && s'.log == LogAfter(s, r, turn) + [Completed(d.id, r)]
  }

  lemma PrepareMemo(cfg: FilterConfig, db: Tables, f: Filter, d: Delivery)
    requires Linked(db) && MemoOK(db, f) && IsPending(db, d.id) && d.position.sourceNode == NodeAt(db, d.id)
    ensures var (f', r) := Prepare(cfg, f, d);
            MemoOK(db, f') && CanComplete(f', d.id) && f'.prepared[d.id] == r
            && r.position.sourceNode == d.position.sourceNode
  {
    hide Median, Coordinates, Separated, LastThree;
  }

  /** The store writes of a pass always find their pending row, and `complete` its node. */
  lemma ProcessPasses(cfg: FilterConfig, s: World, turn: Turn)
    requires Sound(s) && s.batch != []
    ensures Passes(cfg, s, turn, Process(cfg, s, turn))
  {
    hide Valid, FormatTime, Prepare, Complete, NextAttempt, Matches;
    var d := s.batch[0];
    assert IsPending(s.db, d.id) && Matches(s.db, d);
    MatchesNode(s.db, d);
    PrepareMemo(cfg, s.db, s.filter, d);
  }

  lemma MatchesNode(db: Tables, d: Delivery)
    requires Linked(db) && Matches(db, d)
    ensures IsDelivery(db, d.id) && d.position.sourceNode == NodeAt(db, d.id)
  {
    hide StoredTime;
  }

  // ------------------------------------------------------------------ the invariant holds in every run

  lemma StoreGrows(db: Tables, db': Tables, batch: seq<Delivery>, f: Filter)
    requires Linked(db) && Linked(db') && Extends(db, db') && db.deliveries <= db'.deliveries
    requires BatchOK(db, batch) && MemoOK(db, f)
    ensures BatchOK(db', batch) && MemoOK(db', f)
  {
    hide StoredTime;
    forall i | 0 <= i < |batch| ensures IsPending(db', batch[i].id) && Matches(db', batch[i]) {
      assert IsPending(db, batch[i].id) && Matches(db, batch[i]);
    }
  }

  lemma ReadMatches(db: Tables, id: nat)
    requires Linked(db) && IsDelivery(db, id)
    ensures var d := ReadDelivery(db, id);
            d.id == id && Matches(db, d) && d.position.sourceNode == NodeAt(db, id)
  {
    hide StoredTime;
  }

  lemma SnapshotBatch(db: Tables, now: string)
    requires Linked(db)
    ensures BatchOK(db, PendingDeliveries(db, now, LIMIT))
    ensures forall d | d in PendingDeliveries(db, now, LIMIT) :: IsEligible(db, d.id, now)
  {
    SnapshotHeads(db, now, LIMIT);
    hide PendingRows, Matches, ReadDelivery, Before, IsDue, IsHead, NodeAt;
    var rows, batch := PendingRows(db, now, LIMIT), PendingDeliveries(db, now, LIMIT);
    forall i | 0 <= i < |batch|
      ensures batch[i].id == rows[i] + 1 && Matches(db, batch[i]) && IsEligible(db, batch[i].id, now)
      ensures batch[i].position.sourceNode == NodeAt(db, rows[i] + 1)
    {
      assert IsEligible(db, rows[i] + 1, now);
      ReadMatches(db, rows[i] + 1);
    }
  }

  lemma ValidIsReadable(db: Tables, id: nat)
    requires Valid(db) && Linked(db) && IsDelivery(db, id)
    ensures Readable(PositionFor(db, id))
  {
    hide FormatTime, ParseTime, KeyText, ValidDeliveries;
    assert ValidPosition(PositionFor(db, id), |db.packets|);
  }

  /** A snapshot is the worker's view of the rows, fifty at most. */
  lemma SnapshotOffers(s: World, now: Instant)
    requires Valid(s.db) && Linked(s.db)
    ensures Offers(s.db, FormatTime(now), 50, TakeSnapshot(s, now).batch)
  {
    hide Valid, FormatTime, Readable, PendingRows, PendingDeliveries, Offers;
    var rows := PendingRows(s.db, FormatTime(now), LIMIT);
    SnapshotHeads(s.db, FormatTime(now), LIMIT);
    forall a | 0 <= a < |rows| ensures Readable(PositionFor(s.db, rows[a] + 1)) {
      assert IsEligible(s.db, rows[a] + 1, FormatTime(now));
      ValidIsReadable(s.db, rows[a] + 1);
    }
    PendingIsOffers(s.db, FormatTime(now), LIMIT);
  }

  /** The invariant survives every step: the writes of `drain` never miss their pending row, and
      `complete` never misses its entries. */
  lemma SoundStep(cfg: FilterConfig, s: World, step: Step)
    requires Sound(s)
    ensures Sound(Next(cfg, s, step))
  {
    hide Valid, BatchOK, MemoOK, Process, FormatTime, Extends, Archive, UpsertNode, PendingDeliveries;
    var s' := Next(cfg, s, step);
    NextValid(cfg, s, step);
    ValidIsLinked(s'.db);
    NextExtends(cfg, s, step);
    match step
    case Arrive(packet, position, enqueue, now) =>
      AppendsOnly(s.db, packet, position, enqueue, now);
      StoreGrows(s.db, s'.db, s.batch, s.filter);
    case Rename(node, shortName, longName) =>
      RenameKeepsDeliveries(s.db, node, shortName, longName);
      StoreGrows(s.db, s'.db, s.batch, s.filter);
    case Snapshot(now) =>
      SnapshotBatch(s.db, FormatTime(now));
    case Attempt(turn) =>
      if s.batch != [] {
        FirstIsPending(s);
        ProcessPasses(cfg, s, turn);
        PassesSound(cfg, s, turn, s');
      }
  }

  lemma AppendsOnly(db: Tables, packet: Packet, position: Option<Position>, enqueue: bool, now: Instant)
    ensures var r := Archive(db, packet, position, enqueue, now);
            r.Some? ==> db.deliveries <= r.value.0.deliveries
  {
    hide FormatTime, PositionKey;
  }

  lemma RenameKeepsDeliveries(db: Tables, node: uint32, shortName: string, longName: string)
    ensures UpsertNode(db, node, shortName, longName).deliveries == db.deliveries
  {
    hide NodeID, TrimSpace;
  }

  lemma CompleteMemo(db: Tables, f: Filter, id: nat, published: bool)
    requires Linked(db) && MemoOK(db, f) && CanComplete(f, id)
    ensures MemoOK(db, Complete(f, id, published)) && id !in Complete(f, id, published).prepared
  {
    hide Linked, NodeAt, IsPending;
  }

  /** The memo survives a pass over a delivery that stays pending, or is no longer in it. */
  lemma MemoTouched(db: Tables, db': Tables, f: Filter, id: nat, state: DeliveryState)
    requires Linked(db) && Linked(db') && IsDelivery(db, id) && Touches(db, db', id, state)
    requires MemoOK(db, f) && (state == Pending || id !in f.prepared)
    ensures MemoOK(db', f)
  {
  }

  lemma BatchTouched(db: Tables, db': Tables, batch: seq<Delivery>, state: DeliveryState)
    requires Linked(db) && Linked(db') && batch != [] && BatchOK(db, batch)
    requires IsDelivery(db, batch[0].id) && Touches(db, db', batch[0].id, state)
    ensures BatchOK(db', batch[1..])
  {
    hide StoredTime;
    var d := batch[0];
    forall i | 1 <= i < |batch| ensures batch[i].id != d.id {
      assert Matches(db, batch[i]) && Matches(db, d);
    }
    forall i | 1 <= i < |batch| ensures IsPending(db', batch[i].id) && Matches(db', batch[i]) {
      assert IsPending(db, batch[i].id) && Matches(db, batch[i]);
    }
  }

  lemma PassesSound(cfg: FilterConfig, s: World, turn: Turn, s': World)
    requires Sound(s) && s.batch != [] && Valid(s'.db) && Linked(s'.db)
    requires IsDelivery(s.db, s.batch[0].id)
    requires Passes(cfg, s, turn, s')
    ensures Sound(s')
  {
    hide Valid, Prepare, Process, LogAfter, Matches, MemoOK, Complete, Touches, CanComplete, NodeAt;
    var d := s.batch[0];
    var (f, r) := Prepare(cfg, s.filter, d);
    FirstIsPending(s);
    MatchesNode(s.db, d);
    PrepareMemo(cfg, s.db, s.filter, d);
    match OutcomeOf(r, turn)
    case Aborted =>
    case Deferred =>
      MemoTouched(s.db, s'.db, f, d.id, Pending);
      BatchTouched(s.db, s'.db, s.batch, Pending);
    case Finished =>
      CompleteMemo(s.db, f, d.id, r.publish);
      MemoTouched(s.db, s'.db, s'.filter, d.id, Delivered);
      BatchTouched(s.db, s'.db, s.batch, Delivered);
  }

  lemma SoundStart(db: Tables)
    requires Valid(db)
    ensures Sound(Start(db))
  {
    ValidIsLinked(db);
    hide Valid;
  }

  /** In every run from any valid store the worker never crashes and the invariant holds. */
  lemma {:induction false} SoundRun(cfg: FilterConfig, s: World, steps: seq<Step>)
    requires Sound(s)
    ensures Sound(Run(cfg, s, steps))
    ensures Extends(s.db, Run(cfg, s, steps).db)
    decreases |steps|
  {
    hide Sound, Next, Extends;
    if steps == [] {
      ExtendsReflexive(s.db);
    } else {
      var s' := Next(cfg, s, steps[0]);
      SoundStep(cfg, s, steps[0]);
      SoundRun(cfg, s', steps[1..]);
      NextExtends(cfg, s, steps[0]);
      ExtendsTransitive(s.db, s'.db, Run(cfg, s', steps[1..]).db);
    }
  }

  lemma ExtendsReflexive(db: Tables)
    ensures Extends(db, db)
  {
  }
}
