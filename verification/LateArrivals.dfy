/** Out-of-order arrival on a concrete run: two positions of one node, the second archived while the first
    one waits for its retry. When the second is earlier, as text, two deliveries are prepared at once and
    the attempts step back in key order. */
module LateArrivals {
  import opened Wrappers
  import opened Text
  import opened Timestamp
  import opened Model
  import opened Database
  import opened Deliveries
  import opened PositionFilter
  import opened Outbox
  import opened OutboxSafety
  import opened OutboxOrder
  import opened OutboxTheorems
  import DrainLoop
  import StoreRuns

  function Unpublished(t: Clock): Turn {
    Turn(false, true, t, "unreachable")
  }

  /** Both positions arrive; Publish fails for the first before the second arrives, and then once more. */
  function Arrivals(packet: Packet, first: Position, second: Position, t: Clock): seq<Step> {
    [Arrive(packet, Some(first), true, t), Snapshot(t), Attempt(Unpublished(t)),
     Arrive(packet, Some(second), true, t), Snapshot(t), Attempt(Unpublished(t))]
  }

  /** One pending delivery of the node, prepared and waiting. */
  predicate Waiting(s: World, p: Position) {
    && Sound(s) && s.batch == []
    && |s.db.deliveries| == 1 && IsPending(s.db, 1) && NodeAt(s.db, 1) == p.sourceNode
    && TimeAt(s.db, 1) == FormatTime(p.sourceTime)
    && |s.db.positions| == 1 && s.db.positions[0].dedupeKey == PositionKey(p)
    && s.filter.prepared.Keys == {1} && s.filter.prepared[1].position.sourceNode == p.sourceNode
    && StateOf(s.filter, p.sourceNode).lastPublished == None
    && s.log != [] && IsAttempt(s.log[|s.log| - 1], 1, p.sourceNode)
  }

  predicate IsAttempt(e: Event, id: nat, node: uint32) {
    e.Attempted? && e.id == id && e.offered.sourceNode == node
  }

  function RowAt(rows: seq<nat>, i: nat): int {
    if i < |rows| then rows[i] else -1
  }

  /** Distinct rows that are all one row. */
  lemma OneRow(rows: seq<nat>, k: nat)
    requires forall a | 0 <= a < |rows| :: rows[a] == k
    requires forall a, b | 0 <= a < b < |rows| :: rows[a] != rows[b]
    ensures |rows| <= 1
  {
    assert |rows| <= 1 || RowAt(rows, 0) == RowAt(rows, 1);
  }

  lemma Snapshots(s: World, t: Clock, id: nat)
    requires Sound(s) && s.batch == [] && IsDelivery(s.db, id) && IsEligible(s.db, id, FormatTime(t))
    requires forall e | IsDelivery(s.db, e) && e != id :: !IsEligible(s.db, e, FormatTime(t))
    ensures TakeSnapshot(s, t) == s.(batch := [ReadDelivery(s.db, id)])
  {
    hide Valid, FormatTime, TextLess, IsEligible, ReadDelivery, MemoOK, BatchOK, PendingRows;
    var rows := PendingRows(s.db, FormatTime(t), LIMIT);
    SnapshotHeads(s.db, FormatTime(t), LIMIT);
    assert forall a | 0 <= a < |rows| :: IsEligible(s.db, rows[a] + 1, FormatTime(t)) && rows[a] == id - 1;
    if id - 1 !in rows {
      SnapshotComplete(s.db, FormatTime(t), LIMIT, id - 1);
    }
    OneRow(rows, id - 1);
  }

  /** A first report whose Publish fails is prepared and stays pending. */
  lemma FailsFirst(cfg: FilterConfig, s: World, turn: Turn)
    requires Sound(s) && s.batch != [] && !turn.published && turn.stored
    requires s.batch[0].id !in s.filter.prepared
    requires StateOf(s.filter, s.batch[0].position.sourceNode).lastPublished == None
    ensures IsDelivery(s.db, s.batch[0].id)
    ensures var d, s' := s.batch[0], Process(cfg, s, turn);
            && Touches(s.db, s'.db, d.id, Pending) && s'.batch == s.batch[1..]
            && s'.filter.prepared.Keys == s.filter.prepared.Keys + {d.id}
            && (forall id | id in s.filter.prepared :: s'.filter.prepared[id] == s.filter.prepared[id])
            && s'.filter.prepared[d.id].position.sourceNode == d.position.sourceNode
            && StateOf(s'.filter, d.position.sourceNode).lastPublished == None
            && s.log < s'.log && IsAttempt(s'.log[|s'.log| - 1], d.id, d.position.sourceNode)
  {
    hide Valid, Process, Touches, Median, Coordinates, LastThree, MemoOK, BatchOK;
    FirstIsPending(s);
    ProcessPasses(cfg, s, turn);
  }

  lemma FirstArrives(packet: Packet, p: Position, t: Clock)
    requires OnEarth(p.latitude, p.longitude)
    ensures var r := Archive(EMPTY, packet, Some(p), true, t);
            && r.Some? && Valid(r.value.0) && Linked(r.value.0)
            && var db := r.value.0;
            && |db.deliveries| == 1 && IsPending(db, 1) && NodeAt(db, 1) == p.sourceNode
            && TimeAt(db, 1) == FormatTime(p.sourceTime) && db.deliveries[0].nextAttemptAt == FormatTime(t)
            && |db.positions| == 1 && db.positions[0].dedupeKey == PositionKey(p)
  {
    hide FormatTime, PositionKey, Valid;
    StoreRuns.EmptyIsValid();
    ArchiveValid(EMPTY, packet, Some(p), true, t);
    ValidIsLinked(Archive(EMPTY, packet, Some(p), true, t).value.0);
  }

  /** The first position is the next one to be attempted. */
  lemma FirstIsNext(cfg: FilterConfig, packet: Packet, p: Position, t: Clock)
    requires OnEarth(p.latitude, p.longitude)
    ensures var s2 := Next(cfg, Next(cfg, Start(EMPTY), Arrive(packet, Some(p), true, t)), Snapshot(t));
            && Sound(s2) && s2.filter == EMPTY_FILTER && s2.log == []
            && |s2.batch| == 1 && s2.batch[0].id == 1 && s2.batch[0].position.sourceNode == p.sourceNode
            && |s2.db.deliveries| == 1 && NodeAt(s2.db, 1) == p.sourceNode && TimeAt(s2.db, 1) == FormatTime(p.sourceTime)
            && |s2.db.positions| == 1 && s2.db.positions[0].dedupeKey == PositionKey(p)
  {
    hide Valid, FormatTime, PositionKey, Archive, TextLess, ReadDelivery, OnEarth, BatchOK, MemoOK, TakeSnapshot;
    FirstArrives(packet, p, t);
    StoreRuns.EmptyIsValid();
    SoundStart(EMPTY);
    var s1 := Next(cfg, Start(EMPTY), Arrive(packet, Some(p), true, t));
    SoundStep(cfg, Start(EMPTY), Arrive(packet, Some(p), true, t));
    BeforeTotal(s1.db, 1, 1);
    TextLessTotal(FormatTime(t), FormatTime(t));
    Snapshots(s1, t, 1);
    ReadMatches(s1.db, 1);
    SoundStep(cfg, s1, Snapshot(t));
  }

  lemma FirstWaits(cfg: FilterConfig, packet: Packet, first: Position, second: Position, t: Clock)
    requires OnEarth(first.latitude, first.longitude)
    ensures Waiting(Run(cfg, Start(EMPTY), Arrivals(packet, first, second, t)[..3]), first)
  {
    hide Valid, FormatTime, PositionKey, Archive, Process, OnEarth, TakeSnapshot, BatchOK, MemoOK, Touches;
    FirstIsNext(cfg, packet, first, t);
    var steps := Arrivals(packet, first, second, t)[..3];
    var s2 := Next(cfg, Next(cfg, Start(EMPTY), steps[0]), steps[1]);
    FailsFirst(cfg, s2, Unpublished(t));
    var s3 := Next(cfg, s2, steps[2]);
    SoundStep(cfg, s2, steps[2]);
    TouchesKeeps(s2.db, s3.db, 1);
    RunThree(cfg, Start(EMPTY), steps);
  }

  lemma TouchesKeeps(db: Tables, db': Tables, id: nat)
    requires Linked(db) && IsDelivery(db, id) && Touches(db, db', id, Pending) && Linked(db')
    ensures |db'.deliveries| == |db.deliveries| && db'.positions == db.positions
    ensures IsPending(db', id) && NodeAt(db', id) == NodeAt(db, id) && TimeAt(db', id) == TimeAt(db, id)
  {
  }

  lemma RunThree(cfg: FilterConfig, s: World, steps: seq<Step>)
    requires |steps| == 3
    ensures Run(cfg, s, steps) == Next(cfg, Next(cfg, Next(cfg, s, steps[0]), steps[1]), steps[2])
  {
    hide Next;
    var s1 := Next(cfg, s, steps[0]);
    var s2 := Next(cfg, s1, steps[1]);
    var s3 := Next(cfg, s2, steps[2]);
    assert steps[1..][1..] == [steps[2]];
    assert Run(cfg, s2, [steps[2]]) == Run(cfg, s3, []);
    assert Run(cfg, s1, steps[1..]) == Run(cfg, s2, steps[1..][1..]);
  }

  /** A new position of the waiting node adds a second, due delivery. */
  lemma SecondArrives(s: World, packet: Packet, first: Position, second: Position, t: Clock)
    requires Waiting(s, first) && first.sourceNode == second.sourceNode && OnEarth(second.latitude, second.longitude)
    requires FormatTime(first.sourceTime) != FormatTime(second.sourceTime)
    ensures var r := Archive(s.db, packet, Some(second), true, t);
            && r.Some? && Linked(r.value.0) && Extends(s.db, r.value.0)
            && var db := r.value.0;
            && |db.deliveries| == 2 && s.db.deliveries <= db.deliveries
            && IsPending(db, 2) && NodeAt(db, 2) == second.sourceNode && TimeAt(db, 2) == FormatTime(second.sourceTime)
            && db.deliveries[1].nextAttemptAt == FormatTime(t)
  {
    KeyExact(first, second);
    hide FormatTime, PositionKey, Valid, BatchOK, MemoOK, FindKey, OnEarth, TextLess;
    NoSuchKey(s.db.positions, PositionKey(second));
    ArchiveAppends(s.db, packet, Some(second), true, t);
    ArchiveExtends(s.db, packet, Some(second), true, t);
  }

  lemma NoSuchKey(rows: seq<PositionRow>, key: string)
    requires |rows| == 1 && rows[0].dedupeKey != key
    ensures FindKey(rows, key) == None
  {
  }

  /** The earlier of the node's two deliveries is the only one offered. */
  lemma SecondIsOffered(s: World, db: Tables, first: Position, second: Position, t: Clock)
    requires Waiting(s, first) && first.sourceNode == second.sourceNode
    requires TextLess(FormatTime(second.sourceTime), FormatTime(first.sourceTime))
    requires Linked(db) && Extends(s.db, db) && |db.deliveries| == 2 && s.db.deliveries <= db.deliveries
    requires IsPending(db, 2) && NodeAt(db, 2) == second.sourceNode && TimeAt(db, 2) == FormatTime(second.sourceTime)
    requires db.deliveries[1].nextAttemptAt == FormatTime(t)
    ensures IsEligible(db, 2, FormatTime(t)) && !IsEligible(db, 1, FormatTime(t)) && Before(db, 2, 1)
  {
    hide FormatTime, TextLess, Valid, BatchOK, MemoOK, PositionKey;
    ExtendsKeepsKeys(s.db, db, 1);
    TextLessTotal(FormatTime(t), FormatTime(t));
    BeforeTotal(db, 1, 2);
    BeforeTotal(db, 2, 2);
    assert Before(db, 2, 1);
  }

  /** The second position is the next one to be attempted. */
  lemma SecondIsNext(cfg: FilterConfig, s: World, packet: Packet, first: Position, second: Position, t: Clock)
    requires Waiting(s, first) && first.sourceNode == second.sourceNode && OnEarth(second.latitude, second.longitude)
    requires TextLess(FormatTime(second.sourceTime), FormatTime(first.sourceTime))
    ensures var s2 := Next(cfg, Next(cfg, s, Arrive(packet, Some(second), true, t)), Snapshot(t));
            && Sound(s2) && s2.filter == s.filter && s2.log == s.log
            && |s2.batch| == 1 && s2.batch[0].id == 2 && s2.batch[0].position.sourceNode == first.sourceNode
            && IsDelivery(s2.db, 1) && IsDelivery(s2.db, 2) && Before(s2.db, 2, 1)
  {
    hide Valid, FormatTime, PositionKey, Archive, TextLess, ReadDelivery, OnEarth, BatchOK, MemoOK, TakeSnapshot, Extends;
    TextLessTotal(FormatTime(first.sourceTime), FormatTime(first.sourceTime));
    SecondArrives(s, packet, first, second, t);
    var s1 := Next(cfg, s, Arrive(packet, Some(second), true, t));
    SoundStep(cfg, s, Arrive(packet, Some(second), true, t));
    SecondIsOffered(s, s1.db, first, second, t);
    Snapshots(s1, t, 2);
    ReadMatches(s1.db, 2);
    SoundStep(cfg, s1, Snapshot(t));
  }

  lemma SecondPreparesToo(cfg: FilterConfig, s: World, packet: Packet, first: Position, second: Position, t: Clock)
    requires Waiting(s, first) && first.sourceNode == second.sourceNode && OnEarth(second.latitude, second.longitude)
    requires TextLess(FormatTime(second.sourceTime), FormatTime(first.sourceTime))
    ensures var s' := Run(cfg, s, Arrivals(packet, first, second, t)[3..]);
            && Linked(s'.db) && !OnePrepared(s'.filter, first.sourceNode)
            && !AttemptsOK(s'.db, s'.log, first.sourceNode)
  {
    hide Valid, FormatTime, PositionKey, Archive, Process, TextLess, Touches, OnEarth, BatchOK, MemoOK, TakeSnapshot, Before;
    SecondIsNext(cfg, s, packet, first, second, t);
    var steps := Arrivals(packet, first, second, t)[3..];
    var s2 := Next(cfg, Next(cfg, s, steps[0]), steps[1]);
    FailsFirst(cfg, s2, Unpublished(t));
    RunThree(cfg, s, steps);
    var s3 := Next(cfg, s2, steps[2]);
    SoundStep(cfg, s2, steps[2]);
    assert 1 in s3.filter.prepared && 2 in s3.filter.prepared;
    TouchesOrder(s2.db, s3.db);
    StepsBack(s3, |s.log| - 1, first.sourceNode);
  }

  lemma TouchesOrder(db: Tables, db': Tables)
    requires Linked(db) && Linked(db') && IsDelivery(db, 1) && IsDelivery(db, 2) && Touches(db, db', 2, Pending)
    ensures IsDelivery(db', 1) && IsDelivery(db', 2) && Before(db', 2, 1) == Before(db, 2, 1)
  {
    hide TextLess;
  }

  lemma StepsBack(s: World, k: nat, node: uint32)
    requires Linked(s.db) && IsDelivery(s.db, 1) && IsDelivery(s.db, 2) && Before(s.db, 2, 1)
    requires k < |s.log| - 1 && IsAttempt(s.log[k], 1, node) && IsAttempt(s.log[|s.log| - 1], 2, node)
    ensures !AttemptsOK(s.db, s.log, node)
  {
    BeforeTotal(s.db, 2, 1);
    hide Before;
  }

  lemma {:induction false} InOrderAppend(cfg: FilterConfig, s: World, a: seq<Step>, b: seq<Step>)
    requires InOrderRun(cfg, s, a) && InOrderRun(cfg, Run(cfg, s, a), b)
    ensures InOrderRun(cfg, s, a + b)
    decreases |a|
  {
    hide Next, InOrderStep;
    if a == [] {
      assert a + b == b;
    } else {
      assert (a + b)[1..] == a[1..] + b;
      InOrderAppend(cfg, Next(cfg, s, a[0]), a[1..], b);
    }
  }

  /** Only the first of three steps is an arrival. */
  lemma OneArrival(cfg: FilterConfig, s: World, steps: seq<Step>)
    requires |steps| == 3 && steps[1].Snapshot? && steps[2].Attempt? && InOrderStep(s, steps[0])
    ensures InOrderRun(cfg, s, steps)
  {
    hide Next;
    var s1 := Next(cfg, s, steps[0]);
    var s2 := Next(cfg, s1, steps[1]);
    assert InOrderStep(s1, steps[1]) && InOrderStep(s2, steps[2]);
    hide InOrderStep;
    var rest := steps[1..];
    assert InOrderRun(cfg, Next(cfg, s2, steps[2]), []);
    assert rest[1..] == [steps[2]] && [steps[2]][1..] == [];
    assert InOrderRun(cfg, s2, [steps[2]]);
    assert InOrderRun(cfg, s1, rest);
  }

  lemma FirstIsInOrder(cfg: FilterConfig, packet: Packet, first: Position, second: Position, t: Clock)
    requires OnEarth(first.latitude, first.longitude)
    ensures var steps := Arrivals(packet, first, second, t)[..3];
            InOrderRun(cfg, Start(EMPTY), steps) && Ordered(cfg, EMPTY, Run(cfg, Start(EMPTY), steps))
  {
    hide FormatTime, TextLess, Run, InOrderRun, OnEarth, Valid, Ordered, Sound, AddsDelivery;
    var steps := Arrivals(packet, first, second, t)[..3];
    StoreRuns.EmptyIsValid();
    SoundStart(EMPTY);
    OrderedStart(cfg, EMPTY);
    assert ArrivesInOrder(Start(EMPTY), first);
    OneArrival(cfg, Start(EMPTY), steps);
    OrderedRun(cfg, EMPTY, Start(EMPTY), steps);
  }

  lemma WaitingParts(s: World, p: Position)
    requires Waiting(s, p)
    ensures Sound(s) && |s.db.deliveries| == 1 && TimeAt(s.db, 1) == FormatTime(p.sourceTime)
  {
    hide FormatTime, Valid, BatchOK, MemoOK, PositionKey;
  }

  lemma SecondIsInOrder(cfg: FilterConfig, s: World, first: Position, second: Position)
    requires Sound(s) && Ordered(cfg, EMPTY, s)
    requires |s.db.deliveries| == 1 && TimeAt(s.db, 1) == FormatTime(first.sourceTime)
    requires !TextLess(FormatTime(second.sourceTime), FormatTime(first.sourceTime))
    ensures ArrivesInOrder(s, second)
  {
    hide FormatTime, TextLess, Ordered, ArrivesInOrder, Valid, BatchOK, MemoOK, NodeAt, TimeAt;
    NotEarlierIsInOrder(cfg, EMPTY, s, second);
  }

  lemma InOrderArrivals(cfg: FilterConfig, packet: Packet, first: Position, second: Position, t: Clock)
    requires OnEarth(first.latitude, first.longitude) && first.sourceNode == second.sourceNode
    requires !TextLess(FormatTime(second.sourceTime), FormatTime(first.sourceTime))
    ensures InOrderRun(cfg, Start(EMPTY), Arrivals(packet, first, second, t))
  {
    hide FormatTime, TextLess, Run, InOrderRun, OnEarth, Waiting, Ordered, ArrivesInOrder, AddsDelivery, Sound;
    var steps := Arrivals(packet, first, second, t);
    FirstWaits(cfg, packet, first, second, t);
    FirstIsInOrder(cfg, packet, first, second, t);
    var s := Run(cfg, Start(EMPTY), steps[..3]);
    WaitingParts(s, first);
    SecondIsInOrder(cfg, s, first, second);
    OneArrival(cfg, s, steps[3..]);
    InOrderAppend(cfg, Start(EMPTY), steps[..3], steps[3..]);
    assert steps[..3] + steps[3..] == steps;
  }

  /** At the end of the run one delivery at most is prepared, and the attempts ascend in key order, exactly
      when the second position is not earlier than the first, comparing source times as text. */
  lemma LateArrivalExact(cfg: FilterConfig, packet: Packet, first: Position, second: Position, t: Clock)
    requires first.sourceNode == second.sourceNode
    requires OnEarth(first.latitude, first.longitude) && OnEarth(second.latitude, second.longitude)
    ensures var s := Run(cfg, Start(EMPTY), Arrivals(packet, first, second, t));
            var inOrder := !TextLess(FormatTime(second.sourceTime), FormatTime(first.sourceTime));
            && Linked(s.db)
            && (OnePrepared(s.filter, first.sourceNode) <==> inOrder)
            && (AttemptsOK(s.db, s.log, first.sourceNode) <==> inOrder)
  {
    hide FormatTime, TextLess, OnEarth, Run, InOrderRun, Waiting, FoldOK, OffersOK, SameOffers, OnePrepared, AttemptsOK,
         KeysOK, SettledOK, CompletedInOrder, Extends;
    var steps := Arrivals(packet, first, second, t);
    if TextLess(FormatTime(second.sourceTime), FormatTime(first.sourceTime)) {
      FirstWaits(cfg, packet, first, second, t);
      var s := Run(cfg, Start(EMPTY), steps[..3]);
      SecondPreparesToo(cfg, s, packet, first, second, t);
      DrainLoop.RunAppend(cfg, Start(EMPTY), steps[..3], steps[3..]);
      assert steps[..3] + steps[3..] == steps;
    } else {
      StoreRuns.EmptyIsValid();
      InOrderArrivals(cfg, packet, first, second, t);
      RetryTransparency(cfg, EMPTY, steps, first.sourceNode);
      PerNodeOrder(cfg, EMPTY, steps, first.sourceNode);
    }
  }
}
