/** The filter against the history of a run, in whatever order positions arrive: each window holds
    the newest samples of its node, and no report is suppressed without a recent publish. */
module FilterHistory {
  import opened Wrappers
  import opened Timestamp
  import opened Model
  import opened Database
  import opened Deliveries
  import opened PositionFilter
  import opened Outbox
  import opened OutboxSafety

  /** The deliveries of a node in the order in which the filter first saw them. */
  function Fed(log: seq<Event>, node: uint32): seq<Delivery> {
    if log == [] then []
    else
      var e, earlier := log[|log| - 1], Fed(log[..|log| - 1], node);
      if e.Prepared? && e.delivery.position.sourceNode == node then earlier + [e.delivery] else earlier
  }

  lemma FedSnoc(log: seq<Event>, e: Event, node: uint32)
    ensures Fed(log + [e], node)
         == if e.Prepared? && e.delivery.position.sourceNode == node then Fed(log, node) + [e.delivery]
            else Fed(log, node)
  {
    assert (log + [e])[..|log|] == log;
  }

  function PositionsOf(ds: seq<Delivery>): (ps: seq<Position>)
    ensures |ps| == |ds|
  {
    seq(|ds|, i requires 0 <= i < |ds| => ds[i].position)
  }

  /** A completed publish of the same node whose source time is later than `p`'s minus the heartbeat. */
  predicate Covered(cfg: FilterConfig, log: seq<Event>, p: Position) {
    exists k | 0 <= k < |log| ::
      log[k].Completed? && log[k].result.publish && log[k].result.position.sourceNode == p.sourceNode
      && Sub(p.sourceTime, log[k].result.position.sourceTime) < cfg.heartbeat
  }

  lemma CoveredLater(cfg: FilterConfig, log: seq<Event>, e: Event, p: Position)
    requires Covered(cfg, log, p)
    ensures Covered(cfg, log + [e], p)
  {
    var k :| 0 <= k < |log| && log[k].Completed? && log[k].result.publish
             && log[k].result.position.sourceNode == p.sourceNode
             && Sub(p.sourceTime, log[k].result.position.sourceTime) < cfg.heartbeat;
    assert (log + [e])[k] == log[k];
  }

  predicate WindowOK(f: Filter, log: seq<Event>, node: uint32) {
    StateOf(f, node).samples == LastThree(PositionsOf(Fed(log, node)))
  }

  /** The last published position of a node is a completed publish of that node. */
  predicate LastPublishedOK(f: Filter, log: seq<Event>, node: uint32) {
    StateOf(f, node).lastPublished.Some? ==>
      exists k | 0 <= k < |log| ::
        log[k].Completed? && log[k].result == Filtered(StateOf(f, node).lastPublished.value, true)
        && log[k].result.position.sourceNode == node
  }

  predicate SuppressionsOK(cfg: FilterConfig, f: Filter, log: seq<Event>) {
    && (forall id | id in f.prepared && !f.prepared[id].publish :: Covered(cfg, log, f.prepared[id].position))
    && (forall k | 0 <= k < |log| && log[k].Completed? && !log[k].result.publish ::
          Covered(cfg, log[..k], log[k].result.position))
  }

  ghost predicate HistoryOK(cfg: FilterConfig, f: Filter, log: seq<Event>) {
    && (forall node: uint32 :: WindowOK(f, log, node))
    && (forall node: uint32 :: LastPublishedOK(f, log, node))
    && SuppressionsOK(cfg, f, log)
  }

  // ------------------------------------------------------------------ the three events

  lemma SuppressionsLater(cfg: FilterConfig, f: Filter, log: seq<Event>, e: Event)
    requires SuppressionsOK(cfg, f, log)
    requires e.Completed? && !e.result.publish ==> Covered(cfg, log, e.result.position)
    ensures SuppressionsOK(cfg, f, log + [e])
  {
    forall id | id in f.prepared && !f.prepared[id].publish
      ensures Covered(cfg, log + [e], f.prepared[id].position)
    {
      CoveredLater(cfg, log, e, f.prepared[id].position);
    }
    hide Covered;
    forall k | 0 <= k < |log + [e]| && (log + [e])[k].Completed? && !(log + [e])[k].result.publish
      ensures Covered(cfg, (log + [e])[..k], (log + [e])[k].result.position)
    {
      assert (log + [e])[..k] == log[..k];
      if k == |log| {
        assert log[..k] == log;
      }
    }
  }

  lemma LastPublishedLater(f: Filter, log: seq<Event>, e: Event, node: uint32)
    requires LastPublishedOK(f, log, node)
    ensures LastPublishedOK(f, log + [e], node)
  {
    if StateOf(f, node).lastPublished.Some? {
      var k :| 0 <= k < |log| && log[k].Completed?
               && log[k].result == Filtered(StateOf(f, node).lastPublished.value, true)
               && log[k].result.position.sourceNode == node;
      assert (log + [e])[k] == log[k];
    }
  }

  lemma WindowStep(samples: seq<Position>, p: Position)
    ensures LastThree(LastThree(samples) + [p]) == LastThree(samples + [p])
  {
  }

  lemma DecideFacts(cfg: FilterConfig, s: NodeState, p: Position)
    ensures var (s', r) := Decide(cfg, s, p);
            && s' == NodeState(LastThree(s.samples + [p]), s.lastPublished)
            && r.position.sourceNode == p.sourceNode && r.position.sourceTime == p.sourceTime
            && (r.publish
                || (s.lastPublished.Some? && Sub(p.sourceTime, s.lastPublished.value.sourceTime) < cfg.heartbeat))
  {
    hide Median, Coordinates;
  }

  lemma WindowPrepared(cfg: FilterConfig, f: Filter, log: seq<Event>, d: Delivery, node: uint32)
    requires WindowOK(f, log, node) && d.id !in f.prepared
    ensures WindowOK(Prepare(cfg, f, d).0, log + [Prepared(d)], node)
  {
    DecideFacts(cfg, StateOf(f, d.position.sourceNode), d.position);
    FedSnoc(log, Prepared(d), node);
    hide Decide, LastThree, Fed;
    if node == d.position.sourceNode {
      WindowStep(PositionsOf(Fed(log, node)), d.position);
      assert PositionsOf(Fed(log, node) + [d]) == PositionsOf(Fed(log, node)) + [d.position];
    }
  }

  lemma HistoryPrepared(cfg: FilterConfig, f: Filter, log: seq<Event>, d: Delivery)
    requires HistoryOK(cfg, f, log) && d.id !in f.prepared
    ensures HistoryOK(cfg, Prepare(cfg, f, d).0, log + [Prepared(d)])
  {
    var (f', r) := Prepare(cfg, f, d);
    var e, m := Prepared(d), d.position.sourceNode;
    DecideFacts(cfg, StateOf(f, m), d.position);
    hide Decide, WindowOK;
    forall node: uint32
      ensures WindowOK(f', log + [e], node) && LastPublishedOK(f', log + [e], node)
    {
      assert WindowOK(f, log, node) && LastPublishedOK(f, log, node);
      WindowPrepared(cfg, f, log, d, node);
      LastPublishedLater(f, log, e, node);
    }
    assert SuppressionsOK(cfg, f', log) by {
      assert LastPublishedOK(f, log, m);
    }
    SuppressionsLater(cfg, f', log, e);
  }

  lemma HistoryAttempted(cfg: FilterConfig, f: Filter, log: seq<Event>, e: Event)
    requires HistoryOK(cfg, f, log) && e.Attempted?
    ensures HistoryOK(cfg, f, log + [e])
  {
    forall node: uint32 ensures WindowOK(f, log + [e], node) && LastPublishedOK(f, log + [e], node) {
      assert WindowOK(f, log, node) && LastPublishedOK(f, log, node);
      FedSnoc(log, e, node);
      LastPublishedLater(f, log, e, node);
    }
    SuppressionsLater(cfg, f, log, e);
  }

  lemma HistoryCompleted(cfg: FilterConfig, f: Filter, log: seq<Event>, id: nat)
    requires HistoryOK(cfg, f, log) && CanComplete(f, id)
    ensures HistoryOK(cfg, Complete(f, id, f.prepared[id].publish), log + [Completed(id, f.prepared[id])])
  {
    var r := f.prepared[id];
    var f', e := Complete(f, id, r.publish), Completed(id, r);
    forall node: uint32 ensures WindowOK(f', log + [e], node) && LastPublishedOK(f', log + [e], node) {
      assert WindowOK(f, log, node) && LastPublishedOK(f, log, node);
      FedSnoc(log, e, node);
      hide Fed, PositionsOf, LastThree;
      LastPublishedLater(f, log, e, node);
      assert (log + [e])[|log|] == e;
    }
    SuppressionsLater(cfg, f, log, e);
  }

  // ------------------------------------------------------------------ every run

  lemma HistoryPass(cfg: FilterConfig, s: World, turn: Turn, s': World)
    requires s.batch != [] && IsDelivery(s.db, s.batch[0].id) && Passes(cfg, s, turn, s')
    requires HistoryOK(cfg, s.filter, s.log)
    ensures HistoryOK(cfg, s'.filter, s'.log)
  {
    hide HistoryOK, Touches, Complete;
    var d := s.batch[0];
    var (f, r) := Prepare(cfg, s.filter, d);
    var log := if d.id in s.filter.prepared then s.log else s.log + [Prepared(d)];
    if d.id !in s.filter.prepared {
      HistoryPrepared(cfg, s.filter, s.log, d);
    }
    hide Prepare;
    if r.publish {
      HistoryAttempted(cfg, f, log, Attempted(d.id, r.position, turn.published));
    }
    if OutcomeOf(r, turn).Finished? {
      HistoryCompleted(cfg, f, LogAfter(s, r, turn), d.id);
    }
  }

  lemma HistoryStep(cfg: FilterConfig, s: World, step: Step)
    requires Sound(s) && HistoryOK(cfg, s.filter, s.log)
    ensures HistoryOK(cfg, Next(cfg, s, step).filter, Next(cfg, s, step).log)
  {
    hide HistoryOK, Process, Archive, UpsertNode, Valid, BatchOK, MemoOK, Matches;
    match step
    case Arrive(_, _, _, _) =>
    case Rename(_, _, _) =>
    case Snapshot(now) =>
      SnapshotKeepsStore(s, now);
      hide TakeSnapshot;
    case Attempt(turn) =>
      if s.batch != [] {
        FirstIsPending(s);
        ProcessPasses(cfg, s, turn);
        HistoryPass(cfg, s, turn, Process(cfg, s, turn));
      }
  }

  /** Heartbeat coverage and exact windows, in every run of one process from any valid store. */
  lemma {:induction false} HistoryRun(cfg: FilterConfig, s: World, steps: seq<Step>)
    requires Sound(s) && HistoryOK(cfg, s.filter, s.log)
    ensures HistoryOK(cfg, Run(cfg, s, steps).filter, Run(cfg, s, steps).log)
    decreases |steps|
  {
    hide Sound, Next, HistoryOK;
    if steps != [] {
      SoundStep(cfg, s, steps[0]);
      HistoryStep(cfg, s, steps[0]);
      HistoryRun(cfg, Next(cfg, s, steps[0]), steps[1..]);
    }
  }

  /** Each suppressed report of a run has a completed publish of its node, earlier in the run, whose
      source time is later than the report's own minus the heartbeat. */
  lemma HeartbeatCoverage(cfg: FilterConfig, db: Tables, steps: seq<Step>, k: nat)
    requires Valid(db)
    requires var log := Run(cfg, Start(db), steps).log;
             k < |log| && log[k].Completed? && !log[k].result.publish
    ensures var log := Run(cfg, Start(db), steps).log;
            Covered(cfg, log[..k], log[k].result.position)
  {
    SoundStart(db);
    HistoryStart(cfg);
    HistoryRun(cfg, Start(db), steps);
    hide Valid, Run, Covered, WindowOK, LastPublishedOK;
  }

  lemma HistoryStart(cfg: FilterConfig)
    ensures HistoryOK(cfg, EMPTY_FILTER, [])
  {
  }

  // ------------------------------------------------------------------ no sample is fed twice

  /** The filter saw each delivery once; the memo holds it until it is no longer pending. */
  predicate FedOnceOK(db: Tables, f: Filter, log: seq<Event>) {
    && (forall k | 0 <= k < |log| && log[k].Prepared? ::
          var id := log[k].delivery.id; IsDelivery(db, id) && (id in f.prepared || !IsPending(db, id)))
    && (forall k, l | 0 <= k < l < |log| && log[k].Prepared? && log[l].Prepared? ::
          log[k].delivery.id != log[l].delivery.id)
  }

  lemma FedOnceLog(db: Tables, f: Filter, log: seq<Event>, e: Event)
    requires FedOnceOK(db, f, log) && !e.Prepared?
    ensures FedOnceOK(db, f, log + [e])
  {
    forall k | 0 <= k < |log| ensures (log + [e])[k] == log[k] {
    }
  }

  /** A pending delivery that is not in the memo was never seen. */
  lemma FedOncePrepared(cfg: FilterConfig, db: Tables, f: Filter, log: seq<Event>, d: Delivery)
    requires FedOnceOK(db, f, log) && d.id !in f.prepared && IsPending(db, d.id)
    ensures FedOnceOK(db, Prepare(cfg, f, d).0, log + [Prepared(d)])
  {
    hide Decide;
    forall k | 0 <= k < |log| ensures (log + [Prepared(d)])[k] == log[k] {
    }
  }

  lemma FedOnceStore(db: Tables, db': Tables, f: Filter, f': Filter, log: seq<Event>)
    requires FedOnceOK(db, f, log) && Extends(db, db')
    requires forall id | id in f.prepared && id !in f'.prepared :: !IsPending(db', id)
    ensures FedOnceOK(db', f', log)
  {
  }

  lemma FedOncePass(cfg: FilterConfig, s: World, turn: Turn, s': World)
    requires s.batch != [] && IsPending(s.db, s.batch[0].id) && Passes(cfg, s, turn, s') && Extends(s.db, s'.db)
    requires FedOnceOK(s.db, s.filter, s.log)
    ensures FedOnceOK(s'.db, s'.filter, s'.log)
  {
    hide FedOnceOK, Extends, Prepare;
    var d := s.batch[0];
    var (f, r) := Prepare(cfg, s.filter, d);
    var log := if d.id in s.filter.prepared then s.log else s.log + [Prepared(d)];
    if d.id in s.filter.prepared {
      PrepareKnown(cfg, s.filter, d);
    } else {
      FedOncePrepared(cfg, s.db, s.filter, s.log, d);
    }
    if r.publish {
      FedOnceLog(s.db, f, log, Attempted(d.id, r.position, turn.published));
    }
    FedOnceStore(s.db, s'.db, f, s'.filter, LogAfter(s, r, turn));
    if OutcomeOf(r, turn).Finished? {
      FedOnceLog(s'.db, s'.filter, LogAfter(s, r, turn), Completed(d.id, r));
    }
  }

  lemma PrepareKnown(cfg: FilterConfig, f: Filter, d: Delivery)
    requires d.id in f.prepared
    ensures Prepare(cfg, f, d) == (f, f.prepared[d.id])
  {
  }

  lemma FedOnceStep(cfg: FilterConfig, s: World, step: Step)
    requires Sound(s) && FedOnceOK(s.db, s.filter, s.log)
    ensures var s' := Next(cfg, s, step); FedOnceOK(s'.db, s'.filter, s'.log)
  {
    hide FedOnceOK, Process, Archive, UpsertNode, Valid, BatchOK, MemoOK, Matches, Extends, TakeSnapshot, Passes;
    var s' := Next(cfg, s, step);
    NextExtends(cfg, s, step);
    if step.Attempt? && s.batch != [] {
      FirstIsPending(s);
      ProcessPasses(cfg, s, step.turn);
      FedOncePass(cfg, s, step.turn, s');
    } else {
      if step.Snapshot? {
        SnapshotKeepsStore(s, step.now);
      }
      FedOnceStore(s.db, s'.db, s.filter, s'.filter, s.log);
    }
  }

  lemma {:induction false} FedOnceRun(cfg: FilterConfig, s: World, steps: seq<Step>)
    requires Sound(s) && FedOnceOK(s.db, s.filter, s.log)
    ensures var s' := Run(cfg, s, steps); FedOnceOK(s'.db, s'.filter, s'.log)
    decreases |steps|
  {
    hide Sound, Next, FedOnceOK;
    if steps != [] {
      SoundStep(cfg, s, steps[0]);
      FedOnceStep(cfg, s, steps[0]);
      FedOnceRun(cfg, Next(cfg, s, steps[0]), steps[1..]);
    }
  }

  predicate NeverPrepared(log: seq<Event>, id: nat) {
    forall k | 0 <= k < |log| && log[k].Prepared? :: log[k].delivery.id != id
  }

  predicate DistinctDeliveries(ds: seq<Delivery>) {
    forall i, j | 0 <= i < j < |ds| :: ds[i].id != ds[j].id
  }

  lemma {:induction false} NeverFed(log: seq<Event>, node: uint32, id: nat)
    requires NeverPrepared(log, id)
    ensures forall d | d in Fed(log, node) :: d.id != id
    decreases |log|
  {
    if log != [] {
      var init := log[..|log| - 1];
      assert NeverPrepared(init, id) by {
        assert forall k | 0 <= k < |init| :: init[k] == log[k];
      }
      NeverFed(init, node, id);
    }
  }

  lemma {:induction false} DistinctlyFed(log: seq<Event>, node: uint32)
    requires forall k, l | 0 <= k < l < |log| && log[k].Prepared? && log[l].Prepared? ::
               log[k].delivery.id != log[l].delivery.id
    ensures DistinctDeliveries(Fed(log, node))
    decreases |log|
  {
    if log != [] {
      var init, e := log[..|log| - 1], log[|log| - 1];
      DistinctlyFed(init, node);
      if e.Prepared? {
        assert NeverPrepared(init, e.delivery.id) by {
          assert forall k | 0 <= k < |init| :: init[k] == log[k];
        }
        NeverFed(init, node, e.delivery.id);
        assert forall i | 0 <= i < |Fed(init, node)| :: Fed(init, node)[i] in Fed(init, node);
      }
    }
  }

  /** In whatever order positions arrive and whatever fails, no run feeds a delivery to the filter twice. */
  lemma NoSampleTwice(cfg: FilterConfig, db: Tables, steps: seq<Step>, node: uint32)
    requires Valid(db)
    ensures var log := Run(cfg, Start(db), steps).log;
            && (forall k, l | 0 <= k < l < |log| && log[k].Prepared? && log[l].Prepared? ::
                  log[k].delivery.id != log[l].delivery.id)
            && DistinctDeliveries(Fed(log, node))
  {
    SoundStart(db);
    FedOnceRun(cfg, Start(db), steps);
    hide Valid, Run, DistinctDeliveries;
    DistinctlyFed(Run(cfg, Start(db), steps).log, node);
  }

  /** The window of a node is exactly the last three or fewer distinct deliveries prepared for it. */
  lemma WindowsExact(cfg: FilterConfig, db: Tables, steps: seq<Step>, node: uint32)
    requires Valid(db)
    ensures var s := Run(cfg, Start(db), steps);
            && StateOf(s.filter, node).samples == LastThree(PositionsOf(Fed(s.log, node)))
            && DistinctDeliveries(Fed(s.log, node))
  {
    hide Valid, Run, LastPublishedOK, SuppressionsOK, DistinctDeliveries;
    SoundStart(db);
    HistoryStart(cfg);
    HistoryRun(cfg, Start(db), steps);
    NoSampleTwice(cfg, db, steps, node);
    assert WindowOK(Run(cfg, Start(db), steps).filter, Run(cfg, Start(db), steps).log, node);
  }
}
