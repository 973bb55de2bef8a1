/** Completed deliveries and calls of Publish, in every run: a delivery is completed once, after a successful
    call with its position if it counts as published, and without any call if it was suppressed. */
module PublishHistory {
  import opened Wrappers
  import opened Timestamp
  import opened Model
  import opened Database
  import opened Deliveries
  import opened PositionFilter
  import opened Outbox
  import opened OutboxSafety

  /** The positions with which Publish was called. */
  function Calls(log: seq<Event>): seq<Position> {
    if log == [] then []
    else
      var e := log[|log| - 1];
      Calls(log[..|log| - 1]) + if e.Attempted? then [e.offered] else []
  }

  lemma CallsSnoc(log: seq<Event>, e: Event)
    ensures Calls(log + [e]) == Calls(log) + if e.Attempted? then [e.offered] else []
  {
    assert (log + [e])[..|log|] == log;
  }

  // ------------------------------------------------------------------ the invariant

  /** What was attempted is in the memo, to be published as offered, until it is no longer pending. */
  predicate AttemptedOK(db: Tables, f: Filter, log: seq<Event>) {
    forall j | 0 <= j < |log| && log[j].Attempted? ::
      var id := log[j].id;
      && IsDelivery(db, id) && (id in f.prepared || !IsPending(db, id))
      && (id in f.prepared ==> f.prepared[id] == Filtered(log[j].offered, true))
  }

  /** A successful call for the delivery with this position, before the `k`-th event. */
  predicate Published(log: seq<Event>, k: nat, id: nat, position: Position) {
    exists j | 0 <= j < k && j < |log| :: log[j] == Attempted(id, position, true)
  }

  predicate NeverAttempted(log: seq<Event>, id: nat) {
    forall j | 0 <= j < |log| && log[j].Attempted? :: log[j].id != id
  }

  predicate CompletedOK(db: Tables, log: seq<Event>) {
    && (forall k | 0 <= k < |log| && log[k].Completed? ::
          && IsDelivery(db, log[k].id) && !IsPending(db, log[k].id)
          && (if log[k].result.publish then Published(log, k, log[k].id, log[k].result.position)
              else NeverAttempted(log, log[k].id)))
    && (forall k, l | 0 <= k < l < |log| && log[k].Completed? && log[l].Completed? :: log[k].id != log[l].id)
  }

  predicate PublishesOK(db: Tables, f: Filter, log: seq<Event>) {
    AttemptedOK(db, f, log) && CompletedOK(db, log)
  }

  // ------------------------------------------------------------------ the events

  lemma PublishedLater(log: seq<Event>, e: Event, k: nat, id: nat, position: Position)
    requires Published(log, k, id, position)
    ensures Published(log + [e], k, id, position)
  {
    var j :| 0 <= j < k && j < |log| && log[j] == Attempted(id, position, true);
    assert (log + [e])[j] == log[j];
  }

  lemma NeverAttemptedLater(log: seq<Event>, e: Event, id: nat)
    requires NeverAttempted(log, id) && (e.Attempted? ==> e.id != id)
    ensures NeverAttempted(log + [e], id)
  {
  }

  /** An event keeps what is known of the completed ones, unless it attempts one of them again. */
  lemma CompletedLater(db: Tables, log: seq<Event>, e: Event)
    requires CompletedOK(db, log)
    requires e.Attempted? ==> IsPending(db, e.id)
    requires e.Completed? ==>
               && IsDelivery(db, e.id) && !IsPending(db, e.id)
               && (forall k | 0 <= k < |log| && log[k].Completed? :: log[k].id != e.id)
               && (if e.result.publish then Published(log, |log|, e.id, e.result.position) else NeverAttempted(log, e.id))
    ensures CompletedOK(db, log + [e])
  {
    hide Published, NeverAttempted;
    var log' := log + [e];
    forall k | 0 <= k < |log'| && log'[k].Completed?
      ensures IsDelivery(db, log'[k].id) && !IsPending(db, log'[k].id)
      ensures if log'[k].result.publish then Published(log', k, log'[k].id, log'[k].result.position)
              else NeverAttempted(log', log'[k].id)
    {
      assert k < |log| ==> log'[k] == log[k];
      if log'[k].result.publish {
        PublishedLater(log, e, k, log'[k].id, log'[k].result.position);
      } else {
        NeverAttemptedLater(log, e, log'[k].id);
      }
    }
    forall k, l | 0 <= k < l < |log'| && log'[k].Completed? && log'[l].Completed? ensures log'[k].id != log'[l].id {
      assert log'[k] == log[k] && (l < |log| ==> log'[l] == log[l]);
    }
  }

  lemma AttemptedLater(db: Tables, f: Filter, log: seq<Event>, e: Event)
    requires AttemptedOK(db, f, log)
    requires e.Attempted? ==>
               IsDelivery(db, e.id) && e.id in f.prepared && f.prepared[e.id] == Filtered(e.offered, true)
    ensures AttemptedOK(db, f, log + [e])
  {
    forall j | 0 <= j < |log| ensures (log + [e])[j] == log[j] {
    }
  }

  lemma PreparedKeeps(cfg: FilterConfig, db: Tables, f: Filter, log: seq<Event>, d: Delivery)
    requires PublishesOK(db, f, log) && d.id !in f.prepared && IsPending(db, d.id)
    ensures PublishesOK(db, Prepare(cfg, f, d).0, log + [Prepared(d)])
  {
    hide Decide, CompletedOK;
    CompletedLater(db, log, Prepared(d));
    forall j | 0 <= j < |log| ensures (log + [Prepared(d)])[j] == log[j] {
    }
  }

  lemma AttemptKeeps(db: Tables, f: Filter, log: seq<Event>, id: nat, position: Position, success: bool)
    requires PublishesOK(db, f, log) && IsPending(db, id)
    requires id in f.prepared && f.prepared[id] == Filtered(position, true)
    ensures PublishesOK(db, f, log + [Attempted(id, position, success)])
  {
    hide AttemptedOK, CompletedOK;
    AttemptedLater(db, f, log, Attempted(id, position, success));
    CompletedLater(db, log, Attempted(id, position, success));
  }

  lemma StoreKeeps(db: Tables, db': Tables, f: Filter, log: seq<Event>)
    requires PublishesOK(db, f, log) && Extends(db, db')
    ensures PublishesOK(db', f, log)
  {
    hide Published, NeverAttempted;
  }

  /** Completing what is prepared as decided, after its successful call if it is to be published. */
  lemma CompletionKeeps(db: Tables, db': Tables, f: Filter, log: seq<Event>, id: nat)
    requires PublishesOK(db, f, log) && Extends(db, db') && IsPending(db, id) && !IsPending(db', id)
    requires CanComplete(f, id)
    requires f.prepared[id].publish ==> Published(log, |log|, id, f.prepared[id].position)
    ensures PublishesOK(db', Complete(f, id, f.prepared[id].publish), log + [Completed(id, f.prepared[id])])
  {
    hide Published;
    var r := f.prepared[id];
    var e, f' := Completed(id, r), Complete(f, id, r.publish);
    assert forall j | 0 <= j < |log| && log[j].Attempted? && log[j].id == id :: r.publish;
    assert f'.prepared == f.prepared - {id};
    assert AttemptedOK(db', f', log);
    StoreKeeps(db, db', f, log);
    AttemptedLater(db', f', log, e);
    CompletedLater(db', log, e);
  }

  // ------------------------------------------------------------------ every run

  lemma PassKeeps(cfg: FilterConfig, s: World, turn: Turn, s': World)
    requires s.batch != [] && IsPending(s.db, s.batch[0].id) && Passes(cfg, s, turn, s') && Extends(s.db, s'.db)
    requires PublishesOK(s.db, s.filter, s.log)
    ensures PublishesOK(s'.db, s'.filter, s'.log)
  {
    hide PublishesOK, Extends, Prepare, Complete;
    var d := s.batch[0];
    var (f, r) := Prepare(cfg, s.filter, d);
    var log := if d.id in s.filter.prepared then s.log else s.log + [Prepared(d)];
    if d.id in s.filter.prepared {
      Known(cfg, s.filter, d);
    } else {
      PreparedKeeps(cfg, s.db, s.filter, s.log, d);
    }
    if r.publish {
      AttemptKeeps(s.db, f, log, d.id, r.position, turn.published);
    }
    var log' := LogAfter(s, r, turn);
    match OutcomeOf(r, turn)
    case Aborted =>
    case Deferred => StoreKeeps(s.db, s'.db, f, log');
    case Finished =>
      if r.publish {
        assert log'[|log'| - 1] == Attempted(d.id, r.position, true);
      }
      CompletionKeeps(s.db, s'.db, f, log', d.id);
  }

  lemma Known(cfg: FilterConfig, f: Filter, d: Delivery)
    requires d.id in f.prepared
    ensures Prepare(cfg, f, d) == (f, f.prepared[d.id])
  {
  }

  lemma StepKeeps(cfg: FilterConfig, s: World, step: Step)
    requires Sound(s) && PublishesOK(s.db, s.filter, s.log)
    ensures var s' := Next(cfg, s, step); PublishesOK(s'.db, s'.filter, s'.log)
  {
    hide PublishesOK, Process, Archive, UpsertNode, Valid, BatchOK, MemoOK, Matches, Extends, TakeSnapshot, Passes;
    var s' := Next(cfg, s, step);
    NextExtends(cfg, s, step);
    if step.Attempt? && s.batch != [] {
      FirstIsPending(s);
      ProcessPasses(cfg, s, step.turn);
      PassKeeps(cfg, s, step.turn, s');
    } else {
      if step.Snapshot? {
        SnapshotKeepsStore(s, step.now);
      }
      StoreKeeps(s.db, s'.db, s.filter, s.log);
    }
  }

  lemma {:induction false} RunKeeps(cfg: FilterConfig, s: World, steps: seq<Step>)
    requires Sound(s) && PublishesOK(s.db, s.filter, s.log)
    ensures var s' := Run(cfg, s, steps); PublishesOK(s'.db, s'.filter, s'.log)
    decreases |steps|
  {
    hide Sound, Next, PublishesOK;
    if steps != [] {
      SoundStep(cfg, s, steps[0]);
      StepKeeps(cfg, s, steps[0]);
      RunKeeps(cfg, Next(cfg, s, steps[0]), steps[1..]);
    }
  }

  /** In every run a delivery is completed at most once. One that counts as published had a successful call
      of Publish before, with exactly the position settled for it; one that was suppressed had none at all. */
  lemma CompletedMeansPublished(cfg: FilterConfig, db: Tables, steps: seq<Step>)
    requires Valid(db)
    ensures var log := Run(cfg, Start(db), steps).log;
            && (forall k | 0 <= k < |log| && log[k].Completed? ::
                  if log[k].result.publish then Published(log, k, log[k].id, log[k].result.position)
                  else NeverAttempted(log, log[k].id))
            && (forall k, l | 0 <= k < l < |log| && log[k].Completed? && log[l].Completed? :: log[k].id != log[l].id)
  {
    hide Valid, Run, AttemptedOK, Published, NeverAttempted;
    SoundStart(db);
    NothingYet(db);
    RunKeeps(cfg, Start(db), steps);
  }

  lemma NothingYet(db: Tables)
    ensures PublishesOK(db, EMPTY_FILTER, [])
  {
  }
}
