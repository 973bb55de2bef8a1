/** The delivery outbox as a state machine: `Worker.drain` (internal/caltopo/worker.go) over the
    tables of internal/store/store.go, with intake running in between.

    A `World` is the store, the position filter, the rest of the snapshot `drain` is working
    through, and a history of what happened. A run is any sequence of steps: positions arrive,
    nodes are renamed, a snapshot is taken when the last one is used up, or the next delivery of
    the snapshot is attempted, where the publisher and the store may each fail. Every step carries
    its own clock reading. */
module Outbox {
  import opened Wrappers
  import opened Text
  import opened Timestamp
  import opened Model
  import opened Database
  import opened Deliveries
  import opened PositionFilter

  const LIMIT := 50

  // ------------------------------------------------------------------ backoff

  const SECOND := NANOS
  const MAX_BACKOFF := 300 * SECOND

  function Pow2(n: nat): nat {
    if n == 0 then 1 else 2 * Pow2(n - 1)
  }

  function Min(a: int, b: int): int {
    if a < b then a else b
  }

  /** min(1 s << min(attempts, 8), 5 min). */
  function Delay(attempts: nat): int {
    Min(SECOND * Pow2(Min(attempts, 8)), MAX_BACKOFF)
  }

  /** Clock readings whose backed-off times still have four-digit years. */
  type Clock = t: Instant | t + MAX_BACKOFF < DAYS * DAY_SECONDS * NANOS witness 0

  /** Delays run from 2 to 256 seconds and never shrink; the five-minute cap is never reached, and no
      step of the computation leaves the range of a 64-bit duration. */
  lemma BackoffBounds(attempts: nat)
    requires attempts >= 1
    ensures 2 * SECOND <= Delay(attempts) <= 256 * SECOND < MAX_BACKOFF
    ensures Delay(attempts) == SECOND * Pow2(Min(attempts, 8)) <= MAX_DURATION
    ensures Delay(attempts) <= Delay(attempts + 1)
  {
    assert Pow2(8) == 256 by {
      assert Pow2(4) == 16;
    }
    Pow2Grows(1, Min(attempts, 8));
    Pow2Grows(Min(attempts, 8), Min(attempts + 1, 8));
    Pow2Grows(Min(attempts, 8), 8);
  }

  function NextAttempt(now: Clock, attempts: nat): Instant
    requires attempts >= 1
  {
    BackoffBounds(attempts);
    now + Delay(attempts)
  }

  lemma {:induction false} Pow2Grows(m: nat, n: nat)
    requires m <= n
    ensures 1 <= Pow2(m) <= Pow2(n)
    decreases n
  {
    if m < n {
      Pow2Grows(m, n - 1);
    } else if n > 0 {
      Pow2Grows(m - 1, n - 1);
    }
  }

  // ------------------------------------------------------------------ the machine

  datatype Event =
    | Prepared(delivery: Delivery)                              // the filter saw a delivery for the first time
    | Attempted(id: nat, offered: Position, success: bool)      // Publish was called
    | Completed(id: nat, result: Filtered)                      // marked delivered and completed in the filter

  datatype World = World(
    db: Tables,
    filter: Filter,
    batch: seq<Delivery>,
    log: seq<Event>,
    crashed: bool)

  datatype Step =
    | Arrive(packet: Packet, position: Option<Position>, enqueue: bool, now: Instant)
    | Rename(node: uint32, shortName: string, longName: string)
    | Snapshot(now: Instant)
    | Attempt(turn: Turn)

  /** How one pass of `drain`'s loop goes: whether Publish succeeds, and whether the store write does.
      A failing write leaves the store unchanged. */
  datatype Turn = Turn(published: bool, stored: bool, now: Clock, error: string)

  /** One pass of `drain`'s loop. `batch == []` afterwards also stands for drain returning an error. */
  function Process(cfg: FilterConfig, s: World, turn: Turn): World
    requires s.batch != []
  {
    var d := s.batch[0];
    var (filter, r) := Prepare(cfg, s.filter, d);
    var log1 := if d.id in s.filter.prepared then s.log else s.log + [Prepared(d)];
    var log2 := if r.publish then log1 + [Attempted(d.id, r.position, turn.published)] else log1;
    var aborted := World(s.db, filter, [], log2, s.crashed);
    if !r.publish || turn.published then
      var marked := MarkDelivered(s.db, d.id, turn.now);
      if !turn.stored || marked.None? then aborted
      else if !CanComplete(filter, d.id) then aborted.(crashed := true)
      else World(marked.value, Complete(filter, d.id, r.publish), s.batch[1..], log2 + [Completed(d.id, r)], s.crashed)
    else
      var attempts := d.attempts + 1;
      var marked := MarkFailed(s.db, d.id, attempts, NextAttempt(turn.now, attempts), false, turn.error);
      if !turn.stored || marked.None? then aborted
      else World(marked.value, filter, s.batch[1..], log2, s.crashed)
  }

  lemma ValidLinks(db: Tables)
    ensures Valid(db) ==> Linked(db)
  {
    if Valid(db) {
      ValidIsLinked(db);
    }
  }

  /** The query fails, and nothing happens, when stored text does not parse; `Sound` excludes that. */
  function TakeSnapshot(s: World, now: Instant): World {
    ValidLinks(s.db);
    if Valid(s.db) then s.(batch := PendingDeliveries(s.db, FormatTime(now), LIMIT)) else s
  }

  function Next(cfg: FilterConfig, s: World, step: Step): World {
    match step
    case Arrive(packet, position, enqueue, now) =>
      var r := Archive(s.db, packet, position, enqueue, now);
      if r.None? then s else s.(db := r.value.0)
    case Rename(node, shortName, longName) => s.(db := UpsertNode(s.db, node, shortName, longName))
    case Snapshot(now) => if s.batch != [] then s else TakeSnapshot(s, now)
    case Attempt(turn) => if s.batch == [] then s else Process(cfg, s, turn)
  }

  function Run(cfg: FilterConfig, s: World, steps: seq<Step>): World
    decreases |steps|
  {
    if steps == [] then s else Run(cfg, Next(cfg, s, steps[0]), steps[1..])
  }

  /** A process starts on any store with an empty filter. */
  function Start(db: Tables): World {
    World(db, EMPTY_FILTER, [], [], false)
  }

  // ------------------------------------------------------------------ what a store never takes back

  predicate StateMoves(before: DeliveryState, after: DeliveryState) {
    after == before || (before == Pending && after == Delivered)
  }

  predicate SameFix(a: PositionRow, b: PositionRow) {
    a.sourceNode == b.sourceNode && a.sourceTime == b.sourceTime
    && a.latitude == b.latitude && a.longitude == b.longitude
  }

  /** Rows stay, deliveries keep their fix, and a pending delivery only ever becomes delivered. */
  predicate Extends(db: Tables, db': Tables) {
    && |db.positions| <= |db'.positions|
    && |db.deliveries| <= |db'.deliveries|
    && (forall i | 0 <= i < |db.positions| :: SameFix(db.positions[i], db'.positions[i]))
    && (forall i | 0 <= i < |db.deliveries| ::
          db'.deliveries[i].positionID == db.deliveries[i].positionID
          && StateMoves(db.deliveries[i].state, db'.deliveries[i].state))
  }

  lemma ExtendsTransitive(a: Tables, b: Tables, c: Tables)
    requires Extends(a, b) && Extends(b, c)
    ensures Extends(a, c)
  {
  }

  lemma ExtendsKeepsKeys(db: Tables, db': Tables, d: nat)
    requires Linked(db) && Linked(db') && Extends(db, db') && IsDelivery(db, d)
    ensures IsDelivery(db', d)
    ensures NodeAt(db', d) == NodeAt(db, d) && TimeAt(db', d) == TimeAt(db, d)
    ensures IsPending(db', d) ==> IsPending(db, d)
  {
  }

  lemma ExtendsKeepsOrder(db: Tables, db': Tables, d: nat, e: nat)
    requires Linked(db) && Linked(db') && Extends(db, db') && IsDelivery(db, d) && IsDelivery(db, e)
    ensures Before(db', d, e) <==> Before(db, d, e)
  {
    hide TextLess;
    ExtendsKeepsKeys(db, db', d);
    ExtendsKeepsKeys(db, db', e);
  }

  lemma ArchiveExtends(db: Tables, packet: Packet, position: Option<Position>, enqueue: bool, now: Instant)
    requires Archive(db, packet, position, enqueue, now).Some?
    ensures Extends(db, Archive(db, packet, position, enqueue, now).value.0)
  {
    hide PositionKey, FormatTime;
  }

  lemma UpsertExtends(db: Tables, node: uint32, shortName: string, longName: string)
    ensures Extends(db, UpsertNode(db, node, shortName, longName))
  {
    hide NodeID, TrimSpace;
  }

  lemma ProcessExtends(cfg: FilterConfig, s: World, turn: Turn)
    requires s.batch != []
    ensures Extends(s.db, Process(cfg, s, turn).db)
  {
    hide FormatTime, Prepare, Complete, NextAttempt;
  }

  lemma NextExtends(cfg: FilterConfig, s: World, step: Step)
    ensures Extends(s.db, Next(cfg, s, step).db)
  {
    hide Process, TakeSnapshot, Archive, UpsertNode;
    match step
    case Arrive(packet, position, enqueue, now) =>
      if Archive(s.db, packet, position, enqueue, now).Some? {
        ArchiveExtends(s.db, packet, position, enqueue, now);
      }
    case Rename(node, shortName, longName) => UpsertExtends(s.db, node, shortName, longName);
    case Snapshot(now) => SnapshotKeepsStore(s, now);
    case Attempt(turn) =>
      if s.batch != [] {
        ProcessExtends(cfg, s, turn);
      }
  }

  lemma SnapshotKeepsStore(s: World, now: Instant)
    ensures TakeSnapshot(s, now) == s.(batch := TakeSnapshot(s, now).batch)
  {
    hide Valid, FormatTime;
  }

  lemma NextValid(cfg: FilterConfig, s: World, step: Step)
    requires Valid(s.db)
    ensures Valid(Next(cfg, s, step).db)
  {
    hide Valid, Process, TakeSnapshot, Archive, UpsertNode;
    match step
    case Arrive(packet, position, enqueue, now) =>
      if Archive(s.db, packet, position, enqueue, now).Some? {
        ArchiveValid(s.db, packet, position, enqueue, now);
      }
    case Rename(node, shortName, longName) => UpsertValid(s.db, node, shortName, longName);
    case Snapshot(now) => SnapshotKeepsStore(s, now);
    case Attempt(turn) =>
      if s.batch != [] {
        ProcessValid(cfg, s, turn);
      }
  }

  lemma ProcessValid(cfg: FilterConfig, s: World, turn: Turn)
    requires Valid(s.db) && s.batch != []
    ensures Valid(Process(cfg, s, turn).db)
  {
    hide Valid, FormatTime, Prepare, Complete, NextAttempt, MarkDelivered, MarkFailed;
    var d := s.batch[0];
    if IsPending(s.db, d.id) {
      MarkDeliveredValid(s.db, d.id, turn.now);
      MarkFailedValid(s.db, d.id, d.attempts + 1, NextAttempt(turn.now, d.attempts + 1), false, turn.error);
    } else {
      NotFound(s.db, d.id, turn.now, d.attempts + 1, NextAttempt(turn.now, d.attempts + 1), turn.error);
    }
  }

  lemma NotFound(db: Tables, id: nat, now: Instant, attempts: nat, next: Instant, message: string)
    requires !IsPending(db, id)
    ensures MarkDelivered(db, id, now).None? && MarkFailed(db, id, attempts, next, false, message).None?
  {
  }
}
