/** The mutable objects of internal/caltopo/worker.go, proved against the machine of `Outbox`. */
module Workers {
  import opened Wrappers
  import opened Text
  import opened Timestamp
  import opened Model
  import opened Database
  import opened Deliveries
  import opened PositionFilter
  import opened Outbox
  import opened OutboxSafety
  import opened DrainLoop
  import opened PublishHistory
  import opened Stores

  // ------------------------------------------------------------------ positionFilter

  class PositionFilterState {
    var samples: seq<Position>
    var lastPublished: Option<Position>

    constructor ()
      ensures samples == [] && lastPublished == None
    {
      samples, lastPublished := [], None;
    }

    ghost function View(): NodeState
      reads this
    {
      NodeState(samples, lastPublished)
    }

    /** The part of `prepare` that concerns one node: the window slides, the offered point is its median once
        it is full, and the report is published exactly when it must be. */
    method Feed(cfg: FilterConfig, p: Position) returns (position: Position, publish: bool)
      modifies this
      ensures lastPublished == old(lastPublished)
      ensures |old(samples)| <= 3 ==>
                && SlidesTo(old(samples), p, samples) && OfferedFrom(samples, p, position)
                && (publish <==> MustPublish(cfg, old(lastPublished), position, |samples|))
      ensures (View(), Filtered(position, publish)) == Decide(cfg, old(View()), p)
    {
      hide Median, Coordinates, HasMedianRank, SlidesTo, OfferedFrom, MustPublish;
      if |samples| <= 3 {
        DecideLaw(cfg, View(), p);
      }
      samples := samples + [p];
      if |samples| > 3 {
        samples := samples[|samples| - 3..];
      }
      position := p;
      publish := lastPublished.None?;
      if !publish && Sub(p.sourceTime, lastPublished.value.sourceTime) >= cfg.heartbeat {
        publish := true;
      }
      if |samples| == 3 {
        var latitude := MedianCoordinate(samples, (q: Position) => q.latitude);
        var longitude := MedianCoordinate(samples, (q: Position) => q.longitude);
        position := position.(latitude := latitude, longitude := longitude);
        if !publish {
          publish := cfg.distance(lastPublished.value, position) >= cfg.movementMeters;
        }
      }
    }
  }

  class PositionFilterMemory {
    const cfg: FilterConfig
    var nodes: map<uint32, PositionFilterState>
    var prepared: map<nat, Filtered>

    constructor (cfg: FilterConfig)
      ensures this.cfg == cfg && nodes == map[] && Separate() && View() == EMPTY_FILTER
    {
      this.cfg, nodes, prepared := cfg, map[], map[];
    }

    /** No two nodes share a state object. */
    ghost predicate Separate()
      reads this
    {
      forall m, n | m in nodes && n in nodes && m != n :: nodes[m] != nodes[n]
    }

    ghost function View(): Filter
      reads this, nodes.Values
    {
      Filter(map n | n in nodes :: nodes[n].View(), prepared)
    }

    method Prepare(delivery: Delivery) returns (position: Position, publish: bool)
      requires Separate()
      modifies this, nodes.Values
      ensures Separate() && fresh(nodes.Values - old(nodes.Values))
      ensures (View(), Filtered(position, publish)) == PositionFilter.Prepare(cfg, old(View()), delivery)
    {
      hide Decide;
      if delivery.id in prepared {
        return prepared[delivery.id].position, prepared[delivery.id].publish;
      }
      ghost var before := View();
      var node := delivery.position.sourceNode;
      if node !in nodes {
        var created := new PositionFilterState();
        nodes := nodes[node := created];
      }
      var state := nodes[node];
      assert state.View() == StateOf(before, node);
      position, publish := state.Feed(cfg, delivery.position);
      prepared := prepared[delivery.id := Filtered(position, publish)];
      assert View().nodes == before.nodes[node := state.View()];
    }

    method Complete(deliveryID: nat, published: bool)
      requires Separate() && CanComplete(View(), deliveryID)
      modifies this, nodes.Values
      ensures Separate() && nodes == old(nodes)
      ensures View() == PositionFilter.Complete(old(View()), deliveryID, published)
    {
      var entry := prepared[deliveryID];
      if published {
        nodes[entry.position.sourceNode].lastPublished := Some(entry.position);
      }
      prepared := prepared - {deliveryID};
    }
  }

  // ------------------------------------------------------------------ Worker

  /** Intake runs on its own goroutine; these are the transactions it commits between two passes. */
  method RunIntakeSteps(store: Store, steps: seq<Step>)
    requires forall step | step in steps :: IsIntake(step)
    modifies store
    ensures store.db == Intake(old(store.db), steps)
  {
    hide Archive, UpsertNode;
    ghost var start := store.db;
    for i := 0 to |steps|
      invariant Intake(start, steps) == Intake(store.db, steps[i..])
    {
      assert steps[i] in steps && steps[i..][1..] == steps[i + 1..];
      match steps[i]
      case Arrive(packet, position, enqueue, now) =>
        var r := store.Archive(packet, position, enqueue, now, NoFault);
      case Rename(node, shortName, longName) =>
        var r := store.UpsertNode(node, shortName, longName, false);
    }
  }

  /** What the worker publishes to; whether a call succeeds is up to the surroundings. */
  class Publisher {
    var calls: seq<Position>

    constructor ()
      ensures calls == []
    {
      calls := [];
    }

    method Publish(position: Position, succeeds: bool) returns (ok: bool)
      modifies this
      ensures calls == old(calls) + [position] && ok == succeeds
    {
      calls := calls + [position];
      return succeeds;
    }
  }

  class Worker {
    const cfg: FilterConfig
    const store: Store
    const publisher: Publisher
    const filter: PositionFilterMemory
    ghost var log: seq<Event>

    constructor (store: Store, publisher: Publisher, cfg: FilterConfig)
      requires publisher.calls == []
      ensures this.store == store && this.publisher == publisher && this.cfg == cfg && fresh(filter) && Ready()
      ensures WorldWith([]) == Start(store.db)
    {
      this.store, this.publisher, this.cfg, log := store, publisher, cfg, [];
      filter := new PositionFilterMemory(cfg);
    }

    /** The filter is the worker's own, and the history holds exactly the calls that were made. */
    ghost predicate Ready()
      reads this, filter, publisher
    {
      filter.cfg == cfg && filter.Separate() && publisher.calls == Calls(log)
    }

    /** The machine's world, with the given rest of a snapshot. */
    ghost function WorldWith(batch: seq<Delivery>): World
      reads this, store, filter, filter.nodes.Values
    {
      World(store.db, filter.View(), batch, log, false)
    }

    lemma WorldParts(batch: seq<Delivery>)
      ensures WorldWith(batch).db == store.db && WorldWith(batch).batch == batch
      ensures WorldWith(batch) == WorldWith([]).(batch := batch)
    {
    }

    /** Marks a delivery in the store and, if that succeeded, completes it in the filter. */
    method Finish(delivery: Delivery, turn: Turn, published: bool) returns (err: Option<StoreError>)
      requires Ready() && CanComplete(filter.View(), delivery.id)
      modifies this`log, store, publisher, filter, filter.nodes.Values
      ensures Ready() && filter.nodes == old(filter.nodes)
      ensures err.Some? <==> !turn.stored || MarkDelivered(old(store.db), delivery.id, turn.now).None?
      ensures err.Some? ==> WorldWith([]) == old(WorldWith([]))
      ensures err.None? ==>
                && store.db == MarkDelivered(old(store.db), delivery.id, turn.now).value
                && filter.View() == PositionFilter.Complete(old(filter.View()), delivery.id, published)
                && log == old(log) + [Completed(delivery.id, old(filter.View()).prepared[delivery.id])]
    {
      hide FormatTime, PositionFilter.Complete, OnlyDeliveryChanged, PositionFilterState.View, Calls;
      err := store.MarkDelivered(delivery.id, turn.now, !turn.stored);
      if err.Some? {
        return;
      }
      ghost var r := filter.prepared[delivery.id];
      CallsSnoc(log, Completed(delivery.id, r));
      filter.Complete(delivery.id, published);
      log := log + [Completed(delivery.id, r)];
    }

    /** One pass of `drain`'s loop is one step of the machine. */
    method Pass(delivery: Delivery, turn: Turn, ghost batch: seq<Delivery>) returns (err: Option<StoreError>)
      requires Ready() && batch != [] && batch[0] == delivery && Sound(WorldWith(batch))
      modifies this`log, store, publisher, filter, filter.nodes.Values
      ensures Ready() && fresh(filter.nodes.Values - old(filter.nodes.Values))
      ensures err.Some? <==> !turn.stored
      ensures WorldWith(if err.Some? then [] else batch[1..]) == Process(cfg, old(WorldWith(batch)), turn)
    {
      hide PositionFilterMemory.View, PositionFilterState.View, Sound, PositionFilter.Prepare, PositionFilter.Complete,
           NextAttempt, Process, CanComplete, MemoOK, Linked, NodeAt, MarkDelivered, MarkFailed, OnlyDeliveryChanged, FormatTime,
           PositionFilterMemory.Separate, Calls;
      ghost var s := WorldWith(batch);
      PassPending(s);
      ProcessOutcomes(cfg, s, turn);
      ghost var known := delivery.id in s.filter.prepared;
      var position, publish := filter.Prepare(delivery);
      ghost var view, r := filter.View(), Filtered(position, publish);
      if !known {
        CallsSnoc(log, Prepared(delivery));
        log := log + [Prepared(delivery)];
      }
      var published := false;
      if publish {
        published := publisher.Publish(position, turn.published);
        CallsSnoc(log, Attempted(delivery.id, position, published));
        log := log + [Attempted(delivery.id, position, published)];
      }
      assert log == LogAfter(s, r, turn) && filter.View() == view;
      hide LogAfter;
      if !publish || published {
        assert OutcomeOf(r, turn) == if turn.stored then Finished else Aborted;
        err := Finish(delivery, turn, publish);
      } else {
        assert OutcomeOf(r, turn) == if turn.stored then Deferred else Aborted;
        var attempts := delivery.attempts + 1;
        err := store.MarkFailed(delivery.id, attempts, NextAttempt(turn.now, attempts), false, turn.error, !turn.stored);
        assert filter.View() == view;
      }
    }

    /** A pass with what intake commits before it. */
    method PassAfter(pass: DrainLoop.Pass, delivery: Delivery, ghost batch: seq<Delivery>) returns (err: Option<StoreError>)
      requires Ready() && batch != [] && batch[0] == delivery && Sound(WorldWith(batch))
      requires forall step | step in pass.before :: IsIntake(step)
      modifies this`log, store, publisher, filter, filter.nodes.Values
      ensures Ready() && fresh(filter.nodes.Values - old(filter.nodes.Values))
      ensures err.Some? <==> !pass.turn.stored
      ensures WorldWith(if err.Some? then [] else batch[1..])
           == Next(cfg, Run(cfg, old(WorldWith(batch)), pass.before), Attempt(pass.turn))
      ensures Sound(WorldWith(if err.Some? then [] else batch[1..]))
    {
      hide Sound, Process, Run, Intake;
      ghost var w := WorldWith(batch);
      RunIntake(cfg, w, pass.before);
      SoundRun(cfg, w, pass.before);
      RunIntakeSteps(store, pass.before);
      ghost var w1 := WorldWith(batch);
      assert w1 == Run(cfg, w, pass.before);
      SoundStep(cfg, w1, Attempt(pass.turn));
      hide WorldWith;
      WorldParts(batch);
      err := Pass(delivery, pass.turn, batch);
    }

    /** The loop of `drain`: each delivery of a snapshot in turn, until one cannot be stored. */
    method WorkThrough(deliveries: seq<Delivery>, passes: seq<DrainLoop.Pass>) returns (err: Option<StoreError>)
      requires Ready() && Sound(WorldWith(deliveries)) && |passes| >= |deliveries| && Interleaved(passes)
      modifies this`log, store, publisher, filter, filter.nodes.Values
      ensures Ready() && Sound(WorldWith([])) && fresh(filter.nodes.Values - old(filter.nodes.Values))
      ensures WorldWith([]) == DrainPasses(cfg, old(WorldWith(deliveries)), passes)
      ensures err.Some? <==> DrainFails(cfg, old(WorldWith(deliveries)), passes)
    {
      hide Sound, Next, WorldWith, Ready, Run, DrainPasses, DrainFails, DrainFrom, Interleaved;
      ghost var s := WorldWith(deliveries);
      ghost var batch := deliveries;
      var i := 0;
      WholeDrain(cfg, s, passes);
      while i < |deliveries|
        invariant 0 <= i <= |deliveries| && batch == deliveries[i..]
        invariant Ready() && Sound(WorldWith(batch)) && fresh(filter.nodes.Values - old(filter.nodes.Values))
        invariant DrainFrom(cfg, s, passes, WorldWith(batch), i)
      {
        ghost var w := WorldWith(batch);
        WorldParts(batch);
        DrainNext(cfg, s, passes, w, i);
        PassIsIntake(passes, i);
        err := PassAfter(passes[i], deliveries[i], batch);
        if err.Some? {
          WorldParts([]);
          DrainEnds(cfg, s, passes, WorldWith([]), i + 1);
          return;
        }
        batch := batch[1..];
        i := i + 1;
      }
      WorldParts([]);
      DrainEnds(cfg, s, passes, WorldWith([]), i);
      return None;
    }

    /** `drain`: one snapshot, worked through delivery by delivery until it ends or the store fails.
        `passes` says what intake commits before each pass and how the pass goes. */
    method Drain(now: Instant, queryFails: bool, passes: seq<DrainLoop.Pass>) returns (count: nat, err: Option<StoreError>)
      requires Ready() && Sound(WorldWith([])) && |passes| >= LIMIT && Interleaved(passes)
      modifies this`log, store, publisher, filter, filter.nodes.Values
      ensures Ready() && Sound(WorldWith([])) && fresh(filter.nodes.Values - old(filter.nodes.Values))
      ensures var s := if queryFails then old(WorldWith([])) else TakeSnapshot(old(WorldWith([])), now);
              && WorldWith([]) == DrainPasses(cfg, s, passes)
              && (err.Some? <==> queryFails || DrainFails(cfg, s, passes))
              && count == if err.Some? then 0 else |s.batch|
    {
      hide Sound, FormatTime, PendingRows, TakeSnapshot, WorldWith, Ready, DrainPasses, DrainFails, Interleaved;
      ghost var start := WorldWith([]);
      WorldParts([]);
      SnapshotWorld(start, now);
      var queried := store.PendingDeliveries(now, LIMIT, queryFails);
      if queried.Failure? {
        EmptyDrain(cfg, start, passes);
        return 0, Some(queried.error);
      }
      var deliveries := queried.value;
      WorldParts(deliveries);
      err := WorkThrough(deliveries, passes);
      return if err.Some? then 0 else |deliveries|, err;
    }

    /** One round of the inner loop of `Run` without arrivals, and what it means for the due set. */
    method DrainRound(now: Clock, round: Round) returns (count: nat, err: Option<StoreError>)
      requires Ready() && Sound(WorldWith([])) && |round.passes| >= LIMIT && Quiet(round.passes, now)
      modifies this`log, store, publisher, filter, filter.nodes.Values
      ensures Ready() && Sound(WorldWith([])) && fresh(filter.nodes.Values - old(filter.nodes.Values))
      ensures RoundOK(old(store.db), store.db, FormatTime(now), count, err.Some?)
      ensures RoundDelivers(old(store.db), store.db, FormatTime(now), round, err.Some?)
    {
      hide WorldWith, Ready, Sound, FormatTime, PendingSet, AllDue, Extends, TakeSnapshot, Quiet, Succeeds, AllStored, DrainPasses,
           DrainFails, DueSet, HeadsBackOff;
      WorldParts([]);
      ghost var w := WorldWith([]);
      QuietIsInterleaved(round.passes, now);
      count, err := Drain(now, round.queryFails, round.passes);
      WorldParts([]);
      DrainKeeps(cfg, w, now, round);
      if err.None? && count == 0 {
        IdleHeads(w, now);
      }
    }

    /** The inner loop of `Run` with the clock standing still and no arrivals: it ends, because every
        round takes its snapshot out of the due set. Only the store makes it end with an error, whatever
        Publish does. Without one each node still pending has its head backing off; and when nothing fails
        and everything pending starts due, nothing is left. */
    method DrainUntilIdle(now: Clock, rounds: nat -> Round) returns (err: Option<StoreError>)
      requires Ready() && Sound(WorldWith([]))
      requires forall k: nat :: |rounds(k).passes| >= LIMIT && Quiet(rounds(k).passes, now)
      modifies this`log, store, publisher, filter, filter.nodes.Values
      ensures Ready() && Sound(WorldWith([])) && Extends(old(store.db), store.db)
      ensures StoreWorks(rounds) ==> err.None?
      ensures err.None? ==> HeadsBackOff(store.db, FormatTime(now))
      ensures Smooth(rounds) && AllDue(old(store.db), FormatTime(now)) ==> err.None? && PendingSet(store.db) == {}
    {
      hide WorldWith, Ready, Sound, FormatTime, PendingSet, AllDue, Extends, Quiet, Succeeds, AllStored, DueSet,
           HeadsBackOff;
      SmoothWorks(rounds);
      ghost var smooth := Smooth(rounds) && AllDue(store.db, FormatTime(now));
      ExtendsReflexive(store.db);
      var k := 0;
      while true
        invariant Ready() && Sound(WorldWith([])) && Extends(old(store.db), store.db)
        invariant fresh(filter.nodes.Values - old(filter.nodes.Values))
        invariant smooth ==> AllDue(store.db, FormatTime(now))
        decreases DueSet(store.db, FormatTime(now))
      {
        ghost var before := store.db;
        var count;
        count, err := DrainRound(now, rounds(k));
        ExtendsTransitive(old(store.db), before, store.db);
        if err.Some? || count == 0 {
          return;
        }
        k := k + 1;
      }
    }
  }

  /** The failures of one round of the inner loop. */
  datatype Round = Round(queryFails: bool, passes: seq<DrainLoop.Pass>)

  /** The database works; Publish may fail. */
  ghost predicate StoreWorks(rounds: nat -> Round) {
    forall k: nat :: !rounds(k).queryFails && AllStored(rounds(k).passes)
  }

  ghost predicate Smooth(rounds: nat -> Round) {
    forall k: nat :: !rounds(k).queryFails && Succeeds(rounds(k).passes)
  }

  predicate AllDue(db: Tables, now: string) {
    PendingSet(db) <= DueSet(db, now)
  }

  /** The head of every node with pending deliveries is waiting for the clock. */
  predicate HeadsBackOff(db: Tables, now: string) {
    Linked(db) && forall d | 1 <= d <= |db.deliveries| :: IsHead(db, d) ==> !IsDue(db, d, now)
  }

  /** A round that handles something takes it out of the due set; one that finds nothing leaves every
      head backing off. */
  predicate RoundOK(before: Tables, after: Tables, now: string, count: nat, failed: bool) {
    && Extends(before, after)
    && (!failed && count > 0 ==> DueSet(after, now) < DueSet(before, now))
    && (!failed && count == 0 ==> HeadsBackOff(after, now) && (AllDue(after, now) ==> PendingSet(after) == {}))
  }

  /** A round fails only with the store; if Publish works too, nothing is left pending that is not due. */
  predicate RoundDelivers(before: Tables, after: Tables, now: string, round: Round, failed: bool) {
    && (!round.queryFails && AllStored(round.passes) ==> !failed)
    && (!round.queryFails && Succeeds(round.passes) && AllDue(before, now) ==> AllDue(after, now))
  }

  lemma SmoothWorks(rounds: nat -> Round)
    ensures Smooth(rounds) ==> StoreWorks(rounds)
  {
    hide Succeeds, AllStored;
    forall k: nat ensures Succeeds(rounds(k).passes) ==> AllStored(rounds(k).passes) {
      SucceedsIsStored(rounds(k).passes);
    }
  }

  lemma SucceedsIsStored(passes: seq<DrainLoop.Pass>)
    ensures Succeeds(passes) ==> AllStored(passes)
  {
  }

  /** `drain` over `passes` from `s` goes on from `w` with the passes from the `i`-th on. */
  predicate DrainFrom(cfg: FilterConfig, s: World, passes: seq<DrainLoop.Pass>, w: World, i: nat) {
    && i <= |passes|
    && DrainPasses(cfg, s, passes) == DrainPasses(cfg, w, passes[i..])
    && (DrainFails(cfg, s, passes) <==> DrainFails(cfg, w, passes[i..]))
  }

  lemma WholeDrain(cfg: FilterConfig, s: World, passes: seq<DrainLoop.Pass>)
    ensures DrainFrom(cfg, s, passes, s, 0)
  {
    assert passes[0..] == passes;
  }

  lemma DrainNext(cfg: FilterConfig, s: World, passes: seq<DrainLoop.Pass>, w: World, i: nat)
    requires DrainFrom(cfg, s, passes, w, i) && w.batch != [] && i < |passes|
    ensures var w' := Next(cfg, Run(cfg, w, passes[i].before), Attempt(passes[i].turn));
            && (passes[i].turn.stored ==> DrainFrom(cfg, s, passes, w', i + 1))
            && (!passes[i].turn.stored ==>
                  DrainFails(cfg, s, passes) && DrainPasses(cfg, s, passes) == DrainPasses(cfg, w', passes[i + 1..]))
  {
    hide Next, Run;
    assert passes[i..][1..] == passes[i + 1..];
  }

  lemma DrainEnds(cfg: FilterConfig, s: World, passes: seq<DrainLoop.Pass>, w: World, i: nat)
    requires w.batch == [] && i <= |passes|
    ensures DrainFrom(cfg, s, passes, w, i) ==> DrainPasses(cfg, s, passes) == w && !DrainFails(cfg, s, passes)
    ensures DrainPasses(cfg, w, passes[i..]) == w
  {
  }

  lemma EmptyDrain(cfg: FilterConfig, s: World, passes: seq<DrainLoop.Pass>)
    requires s.batch == []
    ensures DrainPasses(cfg, s, passes) == s && !DrainFails(cfg, s, passes)
  {
  }

  lemma PassIsIntake(passes: seq<DrainLoop.Pass>, i: nat)
    requires Interleaved(passes) && i < |passes|
    ensures forall step | step in passes[i].before :: IsIntake(step)
  {
    assert passes[i] in passes;
  }

  lemma SoundLinked(s: World)
    requires Sound(s)
    ensures Linked(s.db)
  {
    hide Valid;
  }

  lemma QuietIsInterleaved(passes: seq<DrainLoop.Pass>, now: Clock)
    requires Quiet(passes, now)
    ensures Interleaved(passes)
  {
  }

  lemma SnapshotIsDue(db: Tables, now: string)
    requires Linked(db)
    ensures Ids(PendingDeliveries(db, now, LIMIT)) <= DueSet(db, now)
  {
    SnapshotBatch(db, now);
    hide PendingDeliveries, Before, TextLess, BatchOK;
    forall d | d in PendingDeliveries(db, now, LIMIT) ensures d.id in DueSet(db, now) {
      assert IsEligible(db, d.id, now);
    }
  }

  /** What one round does to the store, the due set and the pending set. */
  lemma DrainKeeps(cfg: FilterConfig, w: World, now: Clock, round: Round)
    requires Sound(w) && w.batch == [] && |round.passes| >= LIMIT && Quiet(round.passes, now)
    ensures var s := if round.queryFails then w else TakeSnapshot(w, now);
            var w' := DrainPasses(cfg, s, round.passes);
            && Extends(w.db, w'.db)
            && (!round.queryFails && !DrainFails(cfg, s, round.passes) ==>
                  && (s.batch == [] ==> w' == w)
                  && (s.batch != [] ==> DueSet(w'.db, FormatTime(now)) < DueSet(w.db, FormatTime(now))))
            && (AllStored(round.passes) ==> !DrainFails(cfg, s, round.passes))
            && (!round.queryFails && Succeeds(round.passes) && AllDue(w.db, FormatTime(now)) ==>
                  AllDue(w'.db, FormatTime(now)))
  {
    hide Sound, FormatTime, PendingSet, DueSet, Extends, PendingDeliveries, Quiet, Succeeds, AllStored, TakeSnapshot, Run,
         DrainPasses, DrainFails, DrainSteps, Valid;
    SoundLinked(w);
    SnapshotWorld(w, now);
    SnapshotIsDue(w.db, FormatTime(now));
    if AllStored(round.passes) {
      StoredDrainsPass(cfg, if round.queryFails then w else TakeSnapshot(w, now), round.passes);
    }
    var s := if round.queryFails then w else TakeSnapshot(w, now);
    if s.batch == [] {
      EmptyDrain(cfg, s, round.passes);
    }
    DrainIsRun(cfg, s, round.passes);
    SoundRun(cfg, s, DrainSteps(cfg, s, round.passes));
    if !DrainFails(cfg, s, round.passes) {
      DrainShrinks(cfg, s, round.passes, now);
      if s.batch != [] {
        assert s.batch[0].id in Ids(s.batch);
      }
    }
    if Succeeds(round.passes) {
      DrainDelivers(cfg, s, round.passes, now);
    }
  }

  lemma IdleHeads(w: World, now: Clock)
    requires Sound(w) && w.batch == [] && TakeSnapshot(w, now).batch == []
    ensures HeadsBackOff(w.db, FormatTime(now))
    ensures AllDue(w.db, FormatTime(now)) ==> PendingSet(w.db) == {}
  {
    SoundLinked(w);
    SnapshotWorld(w, now);
    hide Sound, FormatTime, TakeSnapshot, PendingDeliveries, IsHead, IsDue, PendingSet, DueSet;
    forall d | 1 <= d <= |w.db.deliveries| && IsHead(w.db, d) ensures !IsDue(w.db, d, FormatTime(now)) {
      EmptySnapshot(w.db, FormatTime(now), d);
    }
    if AllDue(w.db, FormatTime(now)) {
      NothingLeft(w.db, FormatTime(now));
    }
  }

  lemma SnapshotWorld(s: World, now: Instant)
    requires Sound(s) && s.batch == []
    ensures Linked(s.db) && Valid(s.db)
    ensures TakeSnapshot(s, now) == s.(batch := PendingDeliveries(s.db, FormatTime(now), LIMIT))
    ensures Sound(TakeSnapshot(s, now)) && |TakeSnapshot(s, now).batch| <= LIMIT
  {
    hide Valid, BatchOK, MemoOK, FormatTime, Before, IsEligible;
    SnapshotBatch(s.db, FormatTime(now));
    SnapshotHeads(s.db, FormatTime(now), LIMIT);
  }

  /** The three outcomes of a pass, spelled out. */
  lemma ProcessOutcomes(cfg: FilterConfig, s: World, turn: Turn)
    requires s.batch != [] && IsPending(s.db, s.batch[0].id) && !s.crashed && Linked(s.db) && MemoOK(s.db, s.filter)
    requires s.batch[0].position.sourceNode == NodeAt(s.db, s.batch[0].id)
    ensures var d := s.batch[0];
            var (f, r) := Prepare(cfg, s.filter, d);
            var delivered := MarkDelivered(s.db, d.id, turn.now);
            var failed := MarkFailed(s.db, d.id, d.attempts + 1, NextAttempt(turn.now, d.attempts + 1), false, turn.error);
            && CanComplete(f, d.id) && f.prepared[d.id] == r && delivered.Some? && failed.Some?
            && Process(cfg, s, turn)
               == match OutcomeOf(r, turn)
                  case Aborted => World(s.db, f, [], LogAfter(s, r, turn), false)
                  case Deferred => World(failed.value, f, s.batch[1..], LogAfter(s, r, turn), false)
                  case Finished => World(delivered.value, Complete(f, d.id, r.publish), s.batch[1..],
                                         LogAfter(s, r, turn) + [Completed(d.id, r)], false)
  {
    hide Prepare, Complete, FormatTime, NextAttempt, MemoOK, Linked, NodeAt, CanComplete;
    PrepareMemo(cfg, s.db, s.filter, s.batch[0]);
  }

  lemma PassPending(s: World)
    requires Sound(s) && s.batch != []
    ensures Linked(s.db) && IsPending(s.db, s.batch[0].id) && MemoOK(s.db, s.filter) && !s.crashed
    ensures s.batch[0].position.sourceNode == NodeAt(s.db, s.batch[0].id)
  {
    hide Valid, MemoOK, StoredTime;
    assert Matches(s.db, s.batch[0]);
  }
}
