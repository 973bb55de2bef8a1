/** `drain` and the inner loop of `Worker.Run` (internal/caltopo/worker.go) as functions on worlds:
    one snapshot worked through to its end, and why repeating that ends. */
module DrainLoop {
  import opened Wrappers
  import opened Text
  import opened Timestamp
  import opened Model
  import opened Database
  import opened Deliveries
  import opened PositionFilter
  import opened Outbox
  import opened OutboxSafety

  // ------------------------------------------------------------------ intake between two passes

  predicate IsIntake(step: Step) {
    step.Arrive? || step.Rename?
  }

  function IntakeStep(db: Tables, step: Step): Tables
    requires IsIntake(step)
  {
    match step
    case Arrive(packet, position, enqueue, now) =>
      var r := Archive(db, packet, position, enqueue, now);
      if r.None? then db else r.value.0
    case Rename(node, shortName, longName) => UpsertNode(db, node, shortName, longName)
  }

  function Intake(db: Tables, steps: seq<Step>): Tables
    requires forall step | step in steps :: IsIntake(step)
    decreases |steps|
  {
    if steps == [] then db else Intake(IntakeStep(db, steps[0]), steps[1..])
  }

  lemma {:induction false} RunIntake(cfg: FilterConfig, s: World, steps: seq<Step>)
    requires forall step | step in steps :: IsIntake(step)
    ensures Run(cfg, s, steps) == s.(db := Intake(s.db, steps))
    decreases |steps|
  {
    hide Archive, UpsertNode;
    if steps != [] {
      assert IsIntake(steps[0]);
      var s' := Next(cfg, s, steps[0]);
      assert s' == s.(db := IntakeStep(s.db, steps[0]));
      hide IntakeStep;
      RunIntake(cfg, s', steps[1..]);
    }
  }

  // ------------------------------------------------------------------ one call of drain

  /** What intake does before a pass, and how the pass goes. */
  datatype Pass = Pass(before: seq<Step>, turn: Turn)

  predicate Interleaved(passes: seq<Pass>) {
    forall p, step | p in passes && step in p.before :: IsIntake(step)
  }

  function DrainPasses(cfg: FilterConfig, s: World, passes: seq<Pass>): World
    decreases |passes|
  {
    if s.batch == [] || passes == [] then s
    else DrainPasses(cfg, Next(cfg, Run(cfg, s, passes[0].before), Attempt(passes[0].turn)), passes[1..])
  }

  /** Drain returns an error exactly when one of its store writes fails. */
  predicate DrainFails(cfg: FilterConfig, s: World, passes: seq<Pass>)
    decreases |passes|
  {
    s.batch != [] && passes != []
    && (!passes[0].turn.stored
        || DrainFails(cfg, Next(cfg, Run(cfg, s, passes[0].before), Attempt(passes[0].turn)), passes[1..]))
  }

  /** The steps of the machine that a call of drain makes. */
  function DrainSteps(cfg: FilterConfig, s: World, passes: seq<Pass>): seq<Step>
    decreases |passes|
  {
    if s.batch == [] || passes == [] then []
    else
      passes[0].before + [Attempt(passes[0].turn)]
      + DrainSteps(cfg, Next(cfg, Run(cfg, s, passes[0].before), Attempt(passes[0].turn)), passes[1..])
  }

  lemma {:induction false} RunAppend(cfg: FilterConfig, s: World, a: seq<Step>, b: seq<Step>)
    ensures Run(cfg, s, a + b) == Run(cfg, Run(cfg, s, a), b)
    decreases |a|
  {
    hide Next;
    if a == [] {
      assert a + b == b;
    } else {
      assert (a + b)[1..] == a[1..] + b;
      RunAppend(cfg, Next(cfg, s, a[0]), a[1..], b);
    }
  }

  /** A call of drain is a run of the machine, so every theorem about runs speaks of it. */
  lemma {:induction false} DrainIsRun(cfg: FilterConfig, s: World, passes: seq<Pass>)
    ensures DrainPasses(cfg, s, passes) == Run(cfg, s, DrainSteps(cfg, s, passes))
    decreases |passes|
  {
    hide Next;
    if s.batch != [] && passes != [] {
      var before, attempt := passes[0].before, [Attempt(passes[0].turn)];
      var s1 := Run(cfg, s, before);
      var s2 := Next(cfg, s1, attempt[0]);
      var rest := DrainSteps(cfg, s2, passes[1..]);
      calc {
        Run(cfg, s, before + attempt + rest);
        { RunAppend(cfg, s, before + attempt, rest); RunAppend(cfg, s, before, attempt); }
        Run(cfg, Run(cfg, s1, attempt), rest);
        { assert Run(cfg, s1, attempt) == s2; DrainIsRun(cfg, s2, passes[1..]); }
        DrainPasses(cfg, s2, passes[1..]);
      }
    }
  }

  // ------------------------------------------------------------------ drain with the clock fixed and no arrivals

  predicate Quiet(passes: seq<Pass>, now: Clock) {
    forall p | p in passes :: p.before == [] && p.turn.now == now
  }

  /** Pending deliveries whose next attempt is due. */
  function DueSet(db: Tables, now: string): set<nat> {
    set d | 1 <= d <= |db.deliveries| && IsPending(db, d) && IsDue(db, d, now)
  }

  /** A failed delivery backs off at least two seconds, so it is not due, as text, until the clock moves. */
  lemma BackoffIsNotDue(now: Clock, attempts: nat)
    requires attempts >= 1
    ensures TextLess(FormatTime(now), FormatTime(NextAttempt(now, attempts)))
  {
    var next := NextAttempt(now, attempts);
    BackoffBounds(attempts);
    hide FormatTime, TextLess, Delay, FractionDigits;
    LaterSecond(now, next);
    hide NextAttempt;
    EarlierSortsFirst(now, next);
  }

  lemma LaterSecond(s: nat, t: nat)
    requires t >= s + NANOS
    ensures s / NANOS != t / NANOS
  {
    assert (s + NANOS) / NANOS == s / NANOS + 1;
  }

  function StateAfter(cfg: FilterConfig, s: World, turn: Turn): DeliveryState
    requires s.batch != []
  {
    if OutcomeOf(Prepare(cfg, s.filter, s.batch[0]).1, turn).Deferred? then Pending else Delivered
  }

  lemma PassTouches(cfg: FilterConfig, s: World, turn: Turn)
    requires Sound(s) && s.batch != [] && turn.stored
    ensures IsPending(s.db, s.batch[0].id)
    ensures Touches(s.db, Process(cfg, s, turn).db, s.batch[0].id, StateAfter(cfg, s, turn))
    ensures Process(cfg, s, turn).batch == s.batch[1..]
  {
    FirstIsPending(s);
    ProcessPasses(cfg, s, turn);
    hide Process, Prepare, Complete, LogAfter, Touches, Sound;
  }

  /** Every stored pass takes its delivery out of the due set and adds none. */
  lemma PassShrinks(cfg: FilterConfig, s: World, turn: Turn)
    requires Sound(s) && s.batch != [] && turn.stored
    ensures DueSet(Process(cfg, s, turn).db, FormatTime(turn.now))
         == DueSet(s.db, FormatTime(turn.now)) - {s.batch[0].id}
  {
    hide Sound, FormatTime, NextAttempt, TextLess, Prepare, Process, DueSet, Touches;
    PassTouches(cfg, s, turn);
    if StateAfter(cfg, s, turn) == Pending {
      NewAttemptTime(cfg, s, turn);
      BackoffIsNotDue(turn.now, s.batch[0].attempts + 1);
    }
    DueShrinks(s.db, Process(cfg, s, turn).db, s.batch[0].id, StateAfter(cfg, s, turn), FormatTime(turn.now));
  }

  lemma DueShrinks(db: Tables, db': Tables, id: nat, state: DeliveryState, now: string)
    requires IsPending(db, id) && Touches(db, db', id, state)
    requires state == Pending ==> !IsDue(db', id, now)
    ensures DueSet(db', now) == DueSet(db, now) - {id}
  {
    hide TextLess;
    forall e | 1 <= e <= |db.deliveries| && e != id
      ensures IsPending(db', e) == IsPending(db, e) && IsDue(db', e, now) == IsDue(db, e, now)
    {
      var i := e - 1;
      assert db'.deliveries[i] == db.deliveries[i];
    }
  }

  lemma NewAttemptTime(cfg: FilterConfig, s: World, turn: Turn)
    requires s.batch != [] && turn.stored && IsPending(s.db, s.batch[0].id)
    requires OutcomeOf(Prepare(cfg, s.filter, s.batch[0]).1, turn).Deferred?
    ensures |Process(cfg, s, turn).db.deliveries| >= s.batch[0].id
    ensures Process(cfg, s, turn).db.deliveries[s.batch[0].id - 1].nextAttemptAt
         == FormatTime(NextAttempt(turn.now, s.batch[0].attempts + 1))
  {
    hide Prepare, Complete, FormatTime, NextAttempt, MarkDelivered, CanComplete;
  }

  function Ids(batch: seq<Delivery>): set<nat> {
    set d | d in batch :: d.id
  }

  /** A call of drain that does not fail takes exactly its snapshot out of the due set. */
  lemma {:induction false} DrainShrinks(cfg: FilterConfig, s: World, passes: seq<Pass>, now: Clock)
    requires Sound(s) && Quiet(passes, now) && |s.batch| <= |passes| && !DrainFails(cfg, s, passes)
    ensures var s' := DrainPasses(cfg, s, passes);
            && Sound(s') && s'.batch == []
            && DueSet(s'.db, FormatTime(now)) == DueSet(s.db, FormatTime(now)) - Ids(s.batch)
    decreases |passes|
  {
    hide Sound, FormatTime, DueSet, Process;
    if s.batch != [] {
      var turn := passes[0].turn;
      assert passes[0] in passes;
      assert Run(cfg, s, passes[0].before) == s;
      var s1 := Process(cfg, s, turn);
      assert Next(cfg, s, Attempt(turn)) == s1;
      SoundStep(cfg, s, Attempt(turn));
      PassTouches(cfg, s, turn);
      PassShrinks(cfg, s, turn);
      DrainShrinks(cfg, s1, passes[1..], now);
      assert Ids(s.batch) == {s.batch[0].id} + Ids(s.batch[1..]) by {
        assert s.batch == [s.batch[0]] + s.batch[1..];
      }
    }
  }

  // ------------------------------------------------------------------ nothing fails, nothing is left

  predicate Succeeds(passes: seq<Pass>) {
    forall p | p in passes :: p.turn.published && p.turn.stored
  }

  predicate AllStored(passes: seq<Pass>) {
    forall p | p in passes :: p.turn.stored
  }

  /** Only the store makes drain fail, whatever Publish does. */
  lemma {:induction false} StoredDrainsPass(cfg: FilterConfig, s: World, passes: seq<Pass>)
    requires AllStored(passes)
    ensures !DrainFails(cfg, s, passes)
    decreases |passes|
  {
    hide Next, Run;
    if s.batch != [] && passes != [] {
      assert passes[0] in passes;
      StoredDrainsPass(cfg, Next(cfg, Run(cfg, s, passes[0].before), Attempt(passes[0].turn)), passes[1..]);
    }
  }

  function PendingSet(db: Tables): set<nat> {
    set d | 1 <= d <= |db.deliveries| && IsPending(db, d)
  }

  lemma PassDelivers(cfg: FilterConfig, s: World, turn: Turn)
    requires Sound(s) && s.batch != [] && turn.stored && turn.published
    ensures PendingSet(Process(cfg, s, turn).db) == PendingSet(s.db) - {s.batch[0].id}
  {
    PassTouches(cfg, s, turn);
    assert StateAfter(cfg, s, turn) == Delivered;
    hide Sound, Process, Prepare, PendingSet, Touches;
    PendingShrinks(s.db, Process(cfg, s, turn).db, s.batch[0].id);
  }

  lemma PendingShrinks(db: Tables, db': Tables, id: nat)
    requires IsPending(db, id) && Touches(db, db', id, Delivered)
    ensures PendingSet(db') == PendingSet(db) - {id}
  {
    forall e | 1 <= e <= |db.deliveries| && e != id ensures IsPending(db', e) == IsPending(db, e) {
      var i := e - 1;
      assert db'.deliveries[i] == db.deliveries[i];
    }
  }

  lemma {:induction false} DrainDelivers(cfg: FilterConfig, s: World, passes: seq<Pass>, now: Clock)
    requires Sound(s) && Quiet(passes, now) && |s.batch| <= |passes| && Succeeds(passes)
    ensures !DrainFails(cfg, s, passes)
    ensures PendingSet(DrainPasses(cfg, s, passes).db) == PendingSet(s.db) - Ids(s.batch)
    decreases |passes|
  {
    hide Sound, PendingSet, Process;
    if s.batch != [] {
      var turn := passes[0].turn;
      assert passes[0] in passes;
      assert Run(cfg, s, passes[0].before) == s;
      var s1 := Process(cfg, s, turn);
      assert Next(cfg, s, Attempt(turn)) == s1;
      SoundStep(cfg, s, Attempt(turn));
      PassTouches(cfg, s, turn);
      PassDelivers(cfg, s, turn);
      DrainDelivers(cfg, s1, passes[1..], now);
      assert Ids(s.batch) == {s.batch[0].id} + Ids(s.batch[1..]) by {
        assert s.batch == [s.batch[0]] + s.batch[1..];
      }
    }
  }

  /** An empty snapshot means that the head of every node is backing off. */
  lemma EmptySnapshot(db: Tables, now: string, d: nat)
    requires Linked(db) && PendingDeliveries(db, now, LIMIT) == [] && IsHead(db, d)
    ensures !IsDue(db, d, now)
  {
    hide PendingRows, Before, TextLess;
    HeadIsPending(db, d);
    if IsDue(db, d, now) {
      SnapshotComplete(db, now, LIMIT, d - 1);
    }
  }

  lemma NothingLeft(db: Tables, now: string)
    requires Linked(db) && PendingDeliveries(db, now, LIMIT) == [] && PendingSet(db) <= DueSet(db, now)
    ensures PendingSet(db) == {}
  {
    hide PendingRows, Before, TextLess, IsDue, IsHead;
    if d :| d in PendingSet(db) {
      var h := HeadExists(db, d);
      HeadIsPending(db, h);
      assert h in PendingSet(db);
      EmptySnapshot(db, now, h);
    }
  }
}
