/** What passes write into the rows of deliveries, over whole runs: a delivery's attempts count its failed
    publishes that the store took down, and each of them moves the next attempt further away. */
module BackoffRuns {
  import opened Wrappers
  import opened Timestamp
  import opened Model
  import opened Database
  import opened Deliveries
  import opened PositionFilter
  import opened Outbox
  import opened OutboxSafety

  /** The seconds until the next attempt, after so many. */
  function BackoffSeconds(attempts: nat): (seconds: nat)
    ensures seconds <= 256
  {
    [1, 2, 4, 8, 16, 32, 64, 128, 256][if attempts < 8 then attempts else 8]
  }

  lemma Powers(n: nat)
    requires n <= 8
    ensures Pow2(n) == BackoffSeconds(n)
  {
    if n > 0 {
      Powers(n - 1);
    }
  }

  /** The delays are 2, 4, 8, ..., 256 seconds, and then always 256. */
  lemma BackoffTable(now: Clock, attempts: nat)
    requires attempts >= 1
    ensures NextAttempt(now, attempts) == now + BackoffSeconds(attempts) * NANOS
  {
    BackoffBounds(attempts);
    Powers(if attempts < 8 then attempts else 8);
    hide Pow2;
  }

  // ------------------------------------------------------------------ the snapshot knows the attempts

  /** What is left of the snapshot carries the attempts of its rows. */
  predicate AttemptsFresh(s: World) {
    forall d | d in s.batch :: IsDelivery(s.db, d.id) && d.attempts == s.db.deliveries[d.id - 1].attempts
  }

  lemma SnapshotIsFresh(s: World, now: Instant)
    requires Sound(s)
    ensures AttemptsFresh(TakeSnapshot(s, now))
  {
    hide Valid, FormatTime, PendingRows, BatchOK, MemoOK, ReadPosition;
    var ds := PendingDeliveries(s.db, FormatTime(now), LIMIT);
    SnapshotHeads(s.db, FormatTime(now), LIMIT);
    forall i | 0 <= i < |ds|
      ensures IsDelivery(s.db, ds[i].id) && ds[i].attempts == s.db.deliveries[ds[i].id - 1].attempts
    {
      PendingItem(s.db, FormatTime(now), LIMIT, i);
    }
  }

  // ------------------------------------------------------------------ one pass

  /** Publish was called for the delivery between the two worlds, and failed. */
  predicate PublishFailed(s: World, s': World, id: nat) {
    exists k | |s.log| <= k < |s'.log| :: s'.log[k].Attempted? && s'.log[k].id == id && !s'.log[k].success
  }

  predicate WasCompleted(s: World, s': World, id: nat) {
    exists k | |s.log| <= k < |s'.log| :: s'.log[k].Completed? && s'.log[k].id == id
  }

  /** The row of a delivery after a pass, told by what happened. */
  function RowAfter(row: DeliveryRow, s: World, s': World, turn: Turn, id: nat): DeliveryRow {
    if turn.stored && PublishFailed(s, s', id) then
      row.(attempts := row.attempts + 1,
           nextAttemptAt := FormatTime(turn.now + BackoffSeconds(row.attempts + 1) * NANOS),
           lastError := Some(turn.error))
    else if WasCompleted(s, s', id) then
      row.(state := Delivered, deliveredAt := Some(FormatTime(turn.now)), lastError := None)
    else row
  }

  lemma PassLog(cfg: FilterConfig, s: World, turn: Turn)
    requires Sound(s) && s.batch != []
    ensures var s', d, r := Process(cfg, s, turn), s.batch[0], Prepare(cfg, s.filter, s.batch[0]).1;
            && (forall id :: PublishFailed(s, s', id) <==> id == d.id && r.publish && !turn.published)
            && (forall id :: WasCompleted(s, s', id) <==> id == d.id && OutcomeOf(r, turn).Finished?)
  {
    hide Valid, BatchOK, MemoOK, Matches, Prepare, Complete, Touches, Process, CanComplete;
    ProcessPasses(cfg, s, turn);
    FirstIsPending(s);
    var s', d, r := Process(cfg, s, turn), s.batch[0], Prepare(cfg, s.filter, s.batch[0]).1;
    var n := if d.id in s.filter.prepared then |s.log| else |s.log| + 1;
    if r.publish {
      assert s'.log[n] == Attempted(d.id, r.position, turn.published);
    }
    if OutcomeOf(r, turn).Finished? {
      assert s'.log[|s'.log| - 1] == Completed(d.id, r);
    }
  }

  /** A pass writes the row of its own delivery and no other: a failed publish that is stored raises the
      attempts by one and puts the next one off; completion delivers; everything else leaves the row. */
  lemma PassRow(cfg: FilterConfig, s: World, turn: Turn, id: nat)
    requires Sound(s) && s.batch != [] && AttemptsFresh(s) && IsDelivery(s.db, id)
    ensures var s' := Process(cfg, s, turn);
            IsDelivery(s'.db, id)
            && s'.db.deliveries[id - 1] == RowAfter(s.db.deliveries[id - 1], s, s', turn, id)
  {
    hide Valid, BatchOK, MemoOK, Matches, Prepare, Complete, FormatTime, BackoffSeconds, NextAttempt, CanComplete,
         PublishFailed, WasCompleted, Process;
    FirstIsPending(s);
    PassLog(cfg, s, turn);
    assert s.batch[0] in s.batch;
    BackoffTable(turn.now, s.batch[0].attempts + 1);
    PassStore(cfg, s, turn);
  }

  /** The tables after a pass. */
  lemma PassStore(cfg: FilterConfig, s: World, turn: Turn)
    requires Sound(s) && s.batch != []
    ensures IsPending(s.db, s.batch[0].id)
    ensures var d, r, db' := s.batch[0], Prepare(cfg, s.filter, s.batch[0]).1, Process(cfg, s, turn).db;
            db' == match OutcomeOf(r, turn)
                   case Aborted => s.db
                   case Deferred =>
                     MarkFailed(s.db, d.id, d.attempts + 1, NextAttempt(turn.now, d.attempts + 1), false, turn.error).value
                   case Finished => MarkDelivered(s.db, d.id, turn.now).value
  {
    hide Valid, BatchOK, Matches, Prepare, Complete, FormatTime, NextAttempt, CanComplete, MemoOK, Linked, NodeAt;
    FirstIsPending(s);
    FirstOfNode(s);
    PrepareMemo(cfg, s.db, s.filter, s.batch[0]);
  }

  lemma FirstOfNode(s: World)
    requires Sound(s) && s.batch != []
    ensures MemoOK(s.db, s.filter) && Linked(s.db) && IsDelivery(s.db, s.batch[0].id)
    ensures s.batch[0].position.sourceNode == NodeAt(s.db, s.batch[0].id)
  {
    hide Valid, MemoOK, Matches, NodeAt;
    FirstIsPending(s);
    MatchesNode(s.db, s.batch[0]);
  }

  // ------------------------------------------------------------------ whole runs

  lemma PassIsFresh(cfg: FilterConfig, s: World, turn: Turn)
    requires Sound(s) && s.batch != [] && AttemptsFresh(s)
    ensures AttemptsFresh(Process(cfg, s, turn))
  {
    hide Valid, MemoOK, Matches, Prepare, Complete, LogAfter, Process, CanComplete;
    ProcessPasses(cfg, s, turn);
    FirstIsPending(s);
    DistinctIDs(s);
    var s' := Process(cfg, s, turn);
    forall d | d in s'.batch ensures IsDelivery(s'.db, d.id) && d.attempts == s'.db.deliveries[d.id - 1].attempts {
      var i :| 0 <= i < |s'.batch| && s'.batch[i] == d;
      assert d == s.batch[i + 1] && d in s.batch;
    }
  }

  lemma DistinctIDs(s: World)
    requires Sound(s) && s.batch != []
    ensures forall i | 1 <= i < |s.batch| :: s.batch[i].id != s.batch[0].id
  {
    hide Valid, MemoOK, StoredTime;
    forall i | 1 <= i < |s.batch| ensures s.batch[i].id != s.batch[0].id {
      assert Matches(s.db, s.batch[i]) && Matches(s.db, s.batch[0]);
    }
  }

  lemma OthersAreFresh(s: World, db': Tables)
    requires AttemptsFresh(s) && s.db.deliveries <= db'.deliveries
    ensures AttemptsFresh(s.(db := db'))
  {
  }

  lemma StepIsFresh(cfg: FilterConfig, s: World, step: Step)
    requires Sound(s) && AttemptsFresh(s)
    ensures AttemptsFresh(Next(cfg, s, step))
  {
    hide Sound, AttemptsFresh, Process, TakeSnapshot, Archive, UpsertNode;
    match step
    case Arrive(packet, position, enqueue, now) =>
      AppendsOnly(s.db, packet, position, enqueue, now);
      OthersAreFresh(s, Next(cfg, s, step).db);
    case Rename(node, shortName, longName) =>
      RenameKeepsDeliveries(s.db, node, shortName, longName);
      OthersAreFresh(s, Next(cfg, s, step).db);
    case Snapshot(now) => SnapshotIsFresh(s, now);
    case Attempt(turn) =>
      if s.batch != [] {
        PassIsFresh(cfg, s, turn);
      }
  }

  /** Only a pass changes the row of a delivery that exists. */
  lemma StepRow(cfg: FilterConfig, s: World, step: Step, id: nat)
    requires Sound(s) && AttemptsFresh(s) && IsDelivery(s.db, id)
    ensures var s' := Next(cfg, s, step);
            && IsDelivery(s'.db, id)
            && s'.db.deliveries[id - 1]
               == (if step.Attempt? then RowAfter(s.db.deliveries[id - 1], s, s', step.turn, id) else s.db.deliveries[id - 1])
  {
    hide Sound, AttemptsFresh, Process, TakeSnapshot, Archive, UpsertNode, RowAfter;
    match step
    case Arrive(packet, position, enqueue, now) => AppendsOnly(s.db, packet, position, enqueue, now);
    case Rename(node, shortName, longName) => RenameKeepsDeliveries(s.db, node, shortName, longName);
    case Snapshot(now) => SnapshotKeepsStore(s, now);
    case Attempt(turn) =>
      if s.batch != [] {
        PassRow(cfg, s, turn, id);
      } else {
        NothingHappened(s, turn, id);
      }
  }

  lemma NothingHappened(s: World, turn: Turn, id: nat)
    requires IsDelivery(s.db, id)
    ensures RowAfter(s.db.deliveries[id - 1], s, s, turn, id) == s.db.deliveries[id - 1]
  {
  }

  /** The row of a delivery after a run, told by what happened in it. */
  function RowAfterRun(cfg: FilterConfig, row: DeliveryRow, s: World, steps: seq<Step>, id: nat): DeliveryRow
    decreases |steps|
  {
    if steps == [] then row
    else
      var s' := Next(cfg, s, steps[0]);
      RowAfterRun(cfg, if steps[0].Attempt? then RowAfter(row, s, s', steps[0].turn, id) else row, s', steps[1..], id)
  }

  /** Stored failures of a delivery in a run. */
  function Failures(cfg: FilterConfig, s: World, steps: seq<Step>, id: nat): nat
    decreases |steps|
  {
    if steps == [] then 0
    else
      var s' := Next(cfg, s, steps[0]);
      (if steps[0].Attempt? && steps[0].turn.stored && PublishFailed(s, s', id) then 1 else 0)
      + Failures(cfg, s', steps[1..], id)
  }

  lemma RowTold(cfg: FilterConfig, s: World, steps: seq<Step>, id: nat)
    requires Sound(s) && AttemptsFresh(s) && IsDelivery(s.db, id)
    ensures IsDelivery(Run(cfg, s, steps).db, id)
    ensures Run(cfg, s, steps).db.deliveries[id - 1] == RowAfterRun(cfg, s.db.deliveries[id - 1], s, steps, id)
    decreases |steps|
  {
    hide Sound, AttemptsFresh, Next, RowAfter;
    if steps != [] {
      SoundStep(cfg, s, steps[0]);
      StepIsFresh(cfg, s, steps[0]);
      StepRow(cfg, s, steps[0], id);
      RowTold(cfg, Next(cfg, s, steps[0]), steps[1..], id);
    }
  }

  lemma {:induction false} AttemptsTold(cfg: FilterConfig, row: DeliveryRow, s: World, steps: seq<Step>, id: nat)
    ensures RowAfterRun(cfg, row, s, steps, id).attempts == row.attempts + Failures(cfg, s, steps, id)
    decreases |steps|
  {
    hide Next, PublishFailed, WasCompleted, FormatTime, BackoffSeconds;
    if steps != [] {
      var s' := Next(cfg, s, steps[0]);
      AttemptsTold(cfg, if steps[0].Attempt? then RowAfter(row, s, s', steps[0].turn, id) else row, s', steps[1..], id);
    }
  }

  /** In every run from any valid store the row of a delivery is what its passes make of it one after the
      other, and its attempts grow by exactly the number of its stored failures. */
  lemma BackoffRun(cfg: FilterConfig, db: Tables, steps: seq<Step>, more: seq<Step>, id: nat)
    requires Valid(db) && IsDelivery(Run(cfg, Start(db), steps).db, id)
    ensures var s := Run(cfg, Start(db), steps);
            var s' := Run(cfg, s, more);
            && IsDelivery(s'.db, id)
            && s'.db.deliveries[id - 1] == RowAfterRun(cfg, s.db.deliveries[id - 1], s, more, id)
            && s'.db.deliveries[id - 1].attempts == s.db.deliveries[id - 1].attempts + Failures(cfg, s, more, id)
  {
    hide Valid, Run, RowAfterRun, Failures, Sound;
    SoundStart(db);
    SoundRun(cfg, Start(db), steps);
    RunIsFresh(cfg, Start(db), steps);
    var s := Run(cfg, Start(db), steps);
    RowTold(cfg, s, more, id);
    AttemptsTold(cfg, s.db.deliveries[id - 1], s, more, id);
  }

  lemma {:induction false} RunIsFresh(cfg: FilterConfig, s: World, steps: seq<Step>)
    requires Sound(s) && AttemptsFresh(s)
    ensures AttemptsFresh(Run(cfg, s, steps))
    decreases |steps|
  {
    hide Sound, AttemptsFresh, Next;
    if steps != [] {
      SoundStep(cfg, s, steps[0]);
      StepIsFresh(cfg, s, steps[0]);
      RunIsFresh(cfg, Next(cfg, s, steps[0]), steps[1..]);
    }
  }
}
