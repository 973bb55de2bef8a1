/** The main theorems about whole runs of the delivery outbox. */
module OutboxTheorems {
  import opened Wrappers
  import opened Text
  import opened Timestamp
  import opened Model
  import opened Database
  import opened Deliveries
  import opened PositionFilter
  import opened Outbox
  import opened OutboxSafety
  import opened FilterHistory
  import opened OutboxOrder

  // ------------------------------------------------------------------ retry transparency

  /** All a node's attempts at one delivery offer one position. */
  predicate SameOffers(log: seq<Event>, node: uint32) {
    forall k, l | 0 <= k < |log| && 0 <= l < |log| && log[k].Attempted? && log[l].Attempted?
                  && log[k].offered.sourceNode == node && log[l].offered.sourceNode == node && log[k].id == log[l].id ::
      log[k].offered == log[l].offered
  }

  predicate OnePrepared(f: Filter, node: uint32) {
    forall a, b | a in f.prepared && b in f.prepared
                  && f.prepared[a].position.sourceNode == node && f.prepared[b].position.sourceNode == node :: a == b
  }

  /** However Publish, MarkDelivered and MarkFailed fail, a node with in-order arrivals has at most one
      prepared delivery, each retry offers the identical position, and decisions, filtered positions
      and filter state are those of the pure fold over its deliveries. */
  lemma RetryTransparency(cfg: FilterConfig, db: Tables, steps: seq<Step>, node: uint32)
    requires Valid(db) && InOrderRun(cfg, Start(db), steps)
    ensures var s := Run(cfg, Start(db), steps);
            && FoldOK(cfg, s.filter, s.log, node)
            && OffersOK(cfg, s.log, node)
            && SameOffers(s.log, node)
            && OnePrepared(s.filter, node)
  {
    var s := Run(cfg, Start(db), steps);
    ReachNode(cfg, db, steps, node);
    hide Run, Valid, InOrderRun;
    OneInFlight(cfg, s.filter, s.log, node);
    OffersAgree(cfg, s.db, s.log, node);
    hide FoldOK, OffersOK, KeysOK, SettledOK, AttemptsOK, SameOffers, OnePrepared;
  }

  lemma ReachNode(cfg: FilterConfig, db: Tables, steps: seq<Step>, node: uint32)
    requires Valid(db) && InOrderRun(cfg, Start(db), steps)
    ensures var s := Run(cfg, Start(db), steps);
            && Sound(s) && HeadsOK(s.db, s.batch) && NodeOK(cfg, db, s.db, s.filter, s.log, node)
            && Extends(db, s.db)
  {
    SoundStart(db);
    OrderedStart(cfg, db);
    OrderedRun(cfg, db, Start(db), steps);
    SoundRun(cfg, Start(db), steps);
    hide Valid, Run, InOrderRun, NodeOK, HeadsOK, Extends;
  }

  lemma OneInFlight(cfg: FilterConfig, f: Filter, log: seq<Event>, node: uint32)
    requires FoldOK(cfg, f, log, node)
    ensures OnePrepared(f, node)
  {
    hide FoldOK;
    forall a, b | a in f.prepared && b in f.prepared
                  && f.prepared[a].position.sourceNode == node && f.prepared[b].position.sourceNode == node
      ensures a == b
    {
      EntryInFlight(cfg, f, log, a, node);
      EntryInFlight(cfg, f, log, b, node);
    }
  }

  lemma OffersAgree(cfg: FilterConfig, db: Tables, log: seq<Event>, node: uint32)
    requires Linked(db) && OffersOK(cfg, log, node)
    requires KeysOK(db, Fed(log, node), |Done(log, node)|, node)
    ensures SameOffers(log, node)
  {
    hide TextLess, Matches, Decision, Fed, Done;
    var fed := Fed(log, node);
    forall k, l | 0 <= k < |log| && 0 <= l < |log| && log[k].Attempted? && log[l].Attempted?
                  && log[k].offered.sourceNode == node && log[l].offered.sourceNode == node && log[k].id == log[l].id
      ensures log[k].offered == log[l].offered
    {
      assert Offered(cfg, fed, log[k].id, log[k].offered) && Offered(cfg, fed, log[l].id, log[l].offered);
      var i :| 0 <= i < |fed| && fed[i].id == log[k].id && Decision(cfg, fed, i) == Filtered(log[k].offered, true);
      var j :| 0 <= j < |fed| && fed[j].id == log[l].id && Decision(cfg, fed, j) == Filtered(log[l].offered, true);
      FedDistinct(db, fed, |Done(log, node)|, node, i, j);
    }
  }

  lemma FedDistinct(db: Tables, fed: seq<Delivery>, done: nat, node: uint32, i: nat, j: nat)
    requires Linked(db) && KeysOK(db, fed, done, node)
    requires i < |fed| && j < |fed| && fed[i].id == fed[j].id
    ensures i == j
  {
    hide TextLess;
    assert Matches(db, fed[i]);
    hide Matches;
    BeforeTotal(db, fed[i].id, fed[i].id);
  }

  // ------------------------------------------------------------------ per-node order

  /** A node's deliveries completed in key order. */
  predicate CompletedInOrder(db: Tables, done: seq<Settlement>)
    requires Linked(db)
  {
    && (forall i | 0 <= i < |done| :: IsDelivery(db, done[i].id))
    && forall i, j | 0 <= i < j < |done| :: Before(db, done[i].id, done[j].id)
  }

  lemma DoneInOrder(cfg: FilterConfig, db: Tables, f: Filter, log: seq<Event>, node: uint32)
    requires Linked(db) && FoldOK(cfg, f, log, node) && KeysOK(db, Fed(log, node), |Done(log, node)|, node)
    ensures CompletedInOrder(db, Done(log, node))
  {
    hide AtRest, InFlight, Decision, Fed, Done, TextLess, Matches;
    var fed, done := Fed(log, node), Done(log, node);
    forall i | 0 <= i < |done| ensures IsDelivery(db, done[i].id) && done[i].id == fed[i].id {
      MatchesNode(db, fed[i]);
    }
  }

  /** With in-order arrivals the attempts of a node never step back in key order, so the first
      successful publishes of its deliveries ascend strictly; deliveries complete in key order; whatever
      left the pending state was completed; and a pending row only ever became delivered. */
  lemma PerNodeOrder(cfg: FilterConfig, db: Tables, steps: seq<Step>, node: uint32)
    requires Valid(db) && InOrderRun(cfg, Start(db), steps)
    ensures var s := Run(cfg, Start(db), steps);
            && Linked(s.db)
            && AttemptsOK(s.db, s.log, node)
            && KeysOK(s.db, Fed(s.log, node), |Done(s.log, node)|, node)
            && CompletedInOrder(s.db, Done(s.log, node))
            && SettledOK(db, s.db, Done(s.log, node), node)
            && Extends(db, s.db)
  {
    ReachNode(cfg, db, steps, node);
    DoneInOrder(cfg, Run(cfg, Start(db), steps).db, Run(cfg, Start(db), steps).filter, Run(cfg, Start(db), steps).log, node);
    hide CompletedInOrder, Run, Valid, InOrderRun, FoldOK, OffersOK, KeysOK, SettledOK, AttemptsOK, Extends, Fed, Done;
  }

  /** Every failed delivery had already failed before. */
  predicate NoNewFailures(before: Tables, after: Tables) {
    forall i | 0 <= i < |after.deliveries| && after.deliveries[i].state == Failed ::
      i < |before.deliveries| && before.deliveries[i].state == Failed
  }

  lemma NextFailsNone(cfg: FilterConfig, s: World, step: Step)
    ensures NoNewFailures(s.db, Next(cfg, s, step).db)
  {
    hide FormatTime, Prepare, Complete, NextAttempt, PositionKey, FindKey, Valid, UpsertNode, CanComplete;
    match step
    case Arrive(_, _, _, _) =>
    case Rename(node, shortName, longName) => RenameKeepsDeliveries(s.db, node, shortName, longName);
    case Snapshot(now) => SnapshotKeepsStore(s, now); hide TakeSnapshot;
    case Attempt(_) =>
  }

  /** No step of the worker or of intake makes a delivery fail for good. */
  lemma {:induction false} RunFailsNone(cfg: FilterConfig, s: World, steps: seq<Step>)
    ensures NoNewFailures(s.db, Run(cfg, s, steps).db)
    decreases |steps|
  {
    hide Next;
    if steps != [] {
      NextFailsNone(cfg, s, steps[0]);
      RunFailsNone(cfg, Next(cfg, s, steps[0]), steps[1..]);
    }
  }

  /** When the worker is about to attempt a delivery, each of its predecessors in key order is delivered,
      unless it had failed before the process started. */
  lemma PredecessorsAreDelivered(cfg: FilterConfig, db: Tables, steps: seq<Step>, e: nat)
    requires Valid(db) && InOrderRun(cfg, Start(db), steps)
    requires var s := Run(cfg, Start(db), steps);
             && s.batch != [] && Linked(s.db) && IsDelivery(s.db, e) && IsDelivery(s.db, s.batch[0].id)
             && NodeAt(s.db, e) == NodeAt(s.db, s.batch[0].id) && Before(s.db, e, s.batch[0].id)
    ensures Run(cfg, Start(db), steps).db.deliveries[e - 1].state == Delivered
            || (IsDelivery(db, e) && db.deliveries[e - 1].state == Failed)
  {
    hide Run, Valid, InOrderRun, NodeOK, TextLess, BatchOK, MemoOK;
    ReachNode(cfg, db, steps, 0);
    RunFailsNone(cfg, Start(db), steps);
    var s := Run(cfg, Start(db), steps);
    FirstIsHead(s);
    hide HeadsOK, NodeAt;
    assert !IsPending(s.db, e);
  }

  // ------------------------------------------------------------------ publish separation

  lemma FoldPrefix(cfg: FilterConfig, ds: seq<Delivery>, n: nat)
    requires 0 < n <= |ds|
    ensures FoldState(cfg, ds[..n])
         == Settle(Decide(cfg, FoldState(cfg, ds[..n - 1]), ds[n - 1].position).0, Decision(cfg, ds, n - 1))
  {
    hide Decide, Settle, FoldState;
    assert ds[..n] == ds[..n - 1] + [ds[n - 1]];
    FoldSnoc(cfg, ds[..n - 1], ds[n - 1]);
  }

  lemma LastDecision(cfg: FilterConfig, ds: seq<Delivery>, n: nat)
    requires 0 < n <= |ds|
    ensures Decision(cfg, ds, n - 1) == Decide(cfg, FoldState(cfg, ds[..n - 1]), ds[n - 1].position).1
  {
    hide Decide, FoldState;
  }

  /** The fold's last published position is its latest published decision. */
  lemma {:induction false} FoldRemembers(cfg: FilterConfig, ds: seq<Delivery>, n: nat, i: nat)
    requires i < n <= |ds| && Decision(cfg, ds, i).publish
    requires forall k | i < k < n :: !Decision(cfg, ds, k).publish
    ensures FoldState(cfg, ds[..n]).lastPublished == Some(Decision(cfg, ds, i).position)
  {
    hide Decision, Decide, FoldState;
    FoldPrefix(cfg, ds, n);
    LastDecision(cfg, ds, n);
    DecideFacts(cfg, FoldState(cfg, ds[..n - 1]), ds[n - 1].position);
    if i < n - 1 {
      FoldRemembers(cfg, ds, n - 1, i);
    }
  }

  lemma DecideSeparates(cfg: FilterConfig, s: NodeState, p: Position)
    requires s.lastPublished.Some? && Decide(cfg, s, p).1.publish
    ensures var q := Decide(cfg, s, p).1.position;
            Sub(q.sourceTime, s.lastPublished.value.sourceTime) >= cfg.heartbeat
            || cfg.distance(s.lastPublished.value, q) >= cfg.movementMeters
  {
    hide Median, Coordinates;
  }

  /** Consecutive completed publishes of a node are a heartbeat apart in source time, or their filtered
      points are at least the movement threshold apart. */
  lemma PublishSeparation(cfg: FilterConfig, db: Tables, steps: seq<Step>, node: uint32, i: nat, j: nat)
    requires Valid(db) && InOrderRun(cfg, Start(db), steps)
    requires var done := Done(Run(cfg, Start(db), steps).log, node);
             && i < j < |done| && done[i].result.publish && done[j].result.publish
             && forall k | i < k < j :: !done[k].result.publish
    ensures var done := Done(Run(cfg, Start(db), steps).log, node);
            var last, next := done[i].result.position, done[j].result.position;
            Sub(next.sourceTime, last.sourceTime) >= cfg.heartbeat || cfg.distance(last, next) >= cfg.movementMeters
  {
    ReachNode(cfg, db, steps, node);
    var s := Run(cfg, Start(db), steps);
    hide Run, Valid, InOrderRun, OffersOK, KeysOK, SettledOK, AttemptsOK, AtRest, InFlight, Sound, Extends, HeadsOK;
    var fed := Fed(s.log, node);
    hide Decide, FoldState, Fed, Done;
    FoldRemembers(cfg, fed, j, i);
    DecideSeparates(cfg, FoldState(cfg, fed[..j]), fed[j].position);
  }

  // ------------------------------------------------------------------ what in-order arrival is needed for

  /** A new delivery displaces the head of its node exactly when its source time is earlier as text. */
  lemma ArrivalDisplacesHead(db: Tables, db': Tables, d: nat, packet: Packet, p: Position, now: Instant)
    requires Linked(db) && IsHead(db, d) && NodeAt(db, d) == p.sourceNode
    requires AddsDelivery(db, Arrive(packet, Some(p), true, now))
    requires Archive(db, packet, Some(p), true, now).Some? && db' == Archive(db, packet, Some(p), true, now).value.0
    ensures Linked(db') && (IsHead(db', d) <==> !TextLess(FormatTime(p.sourceTime), TimeAt(db, d)))
  {
    hide Archive, FormatTime, PositionKey, FindKey, TextLess, Extends, IsHead, NodeAt, TimeAt;
    ArchiveAppends(db, packet, Some(p), true, now);
    HeadAgainstNewest(db, db', d);
  }

  lemma HeadAgainstNewest(db: Tables, db': Tables, d: nat)
    requires Linked(db) && Linked(db') && Extends(db, db') && IsHead(db, d)
    requires |db'.deliveries| == |db.deliveries| + 1 && db.deliveries <= db'.deliveries
    requires IsPending(db', |db'.deliveries|) && NodeAt(db', |db'.deliveries|) == NodeAt(db, d)
    ensures IsHead(db', d) <==> !TextLess(TimeAt(db', |db'.deliveries|), TimeAt(db, d))
  {
    hide TextLess;
    ExtendsKeepsKeys(db, db', d);
    assert db'.deliveries[d - 1] == db.deliveries[d - 1];
    forall c | 1 <= c <= |db.deliveries| && IsPending(db', c) && NodeAt(db', c) == NodeAt(db', d)
      ensures !Before(db', c, d)
    {
      ExtendsKeepsKeys(db, db', c);
      ExtendsKeepsOrder(db, db', c, d);
    }
    hide Extends;
    assert Before(db', |db'.deliveries|, d) <==> TextLess(TimeAt(db', |db'.deliveries|), TimeAt(db, d));
  }

  lemma PrepareAdds(cfg: FilterConfig, f: Filter, d: Delivery)
    requires d.id !in f.prepared
    ensures var (f', r) := Prepare(cfg, f, d);
            f'.prepared == f.prepared[d.id := r] && r.position.sourceNode == d.position.sourceNode
  {
    DecideFacts(cfg, StateOf(f, d.position.sourceNode), d.position);
    hide Decide;
  }

  /** A displaced head that is prepared meets the new head of its node: the node keeps one prepared
      delivery if and only if the pass completes the new head at once, that is, the store takes the write
      and the report is suppressed or published. */
  lemma DisplacedHeadPreparesTwo(cfg: FilterConfig, s: World, d: nat, turn: Turn)
    requires Sound(s) && s.batch != [] && d in s.filter.prepared && s.batch[0].id !in s.filter.prepared
    requires s.filter.prepared[d].position.sourceNode == s.batch[0].position.sourceNode
    requires OnePrepared(s.filter, s.batch[0].position.sourceNode)
    ensures OnePrepared(Process(cfg, s, turn).filter, s.batch[0].position.sourceNode)
       <==> turn.stored && (turn.published || !Prepare(cfg, s.filter, s.batch[0]).1.publish)
  {
    hide Process, Prepare, Valid, BatchOK, Matches, MemoOK, Touches, LogAfter;
    ProcessPasses(cfg, s, turn);
    FirstIsPending(s);
    PrepareAdds(cfg, s.filter, s.batch[0]);
    var id, f' := s.batch[0].id, Process(cfg, s, turn).filter;
    if OutcomeOf(Prepare(cfg, s.filter, s.batch[0]).1, turn).Finished? {
      assert f'.prepared == s.filter.prepared;
    } else {
      assert d in f'.prepared && id in f'.prepared && d != id;
    }
  }

  /** What the filter saw of a node came in key order. */
  predicate FedInOrder(db: Tables, fed: seq<Delivery>)
    requires Linked(db)
  {
    && (forall i | 0 <= i < |fed| :: IsDelivery(db, fed[i].id))
    && forall i, j | 0 <= i < j < |fed| :: Before(db, fed[i].id, fed[j].id)
  }

  lemma NextExtendsLog(cfg: FilterConfig, s: World, step: Step)
    ensures s.log <= Next(cfg, s, step).log
  {
    hide Archive, UpsertNode, Prepare, Complete, MarkDelivered, MarkFailed, NextAttempt, CanComplete, TakeSnapshot;
    if step.Snapshot? {
      SnapshotKeepsStore(s, step.now);
    }
  }

  lemma {:induction false} RunExtendsLog(cfg: FilterConfig, s: World, steps: seq<Step>)
    ensures s.log <= Run(cfg, s, steps).log
    decreases |steps|
  {
    hide Next;
    if steps != [] {
      NextExtendsLog(cfg, s, steps[0]);
      RunExtendsLog(cfg, Next(cfg, s, steps[0]), steps[1..]);
    }
  }

  lemma {:induction false} FedPrefix(log: seq<Event>, log': seq<Event>, node: uint32)
    requires log <= log'
    ensures Fed(log, node) <= Fed(log', node)
    decreases |log'|
  {
    if log != log' {
      FedPrefix(log, log'[..|log'| - 1], node);
    }
  }

  /** A late sample cannot be put right: once the filter saw a delivery, feeding it an earlier one of the
      node leaves what it saw out of key order in every continuation. */
  lemma LateSampleStaysLate(cfg: FilterConfig, s: World, steps: seq<Step>, node: uint32, i: nat, j: nat)
    requires Sound(s)
    requires var fed, fed' := Fed(s.log, node), Fed(Run(cfg, s, steps).log, node);
             && i < |fed| <= j < |fed'| && IsDelivery(s.db, fed[i].id) && IsDelivery(s.db, fed'[j].id)
             && Before(s.db, fed'[j].id, fed[i].id)
    ensures Linked(Run(cfg, s, steps).db) && !FedInOrder(Run(cfg, s, steps).db, Fed(Run(cfg, s, steps).log, node))
  {
    hide Valid, BatchOK, MemoOK, Run, Fed, Before, Extends;
    var s' := Run(cfg, s, steps);
    SoundRun(cfg, s, steps);
    RunExtendsLog(cfg, s, steps);
    FedPrefix(s.log, s'.log, node);
    var a, b := Fed(s'.log, node)[i].id, Fed(s'.log, node)[j].id;
    assert a == Fed(s.log, node)[i].id;
    ExtendsKeepsKeys(s.db, s'.db, a);
    ExtendsKeepsKeys(s.db, s'.db, b);
    ExtendsKeepsOrder(s.db, s'.db, b, a);
    BeforeTotal(s'.db, a, b);
  }
}
