/** Retry transparency and per-node order: with positions that arrive in order, each node's decisions
    are a pure fold over its deliveries, whatever fails in between; and exactly which arrivals are in order. */
module OutboxOrder {
  import opened Wrappers
  import opened Text
  import opened Timestamp
  import opened Model
  import opened Database
  import opened Deliveries
  import opened PositionFilter
  import opened Outbox
  import opened OutboxSafety
  import opened FilterHistory

  // ------------------------------------------------------------------ the specification: a pure fold

  /** A node's filter after its deliveries `ds` were each decided once and completed. */
  function FoldState(cfg: FilterConfig, ds: seq<Delivery>): NodeState {
    if ds == [] then FRESH_NODE
    else
      var (s, r) := Decide(cfg, FoldState(cfg, ds[..|ds| - 1]), ds[|ds| - 1].position);
      Settle(s, r)
  }

  /** The decision of the fold about its `i`-th delivery. */
  function Decision(cfg: FilterConfig, ds: seq<Delivery>, i: nat): Filtered
    requires i < |ds|
  {
    Decide(cfg, FoldState(cfg, ds[..i]), ds[i].position).1
  }

  lemma FoldSnoc(cfg: FilterConfig, ds: seq<Delivery>, d: Delivery)
    ensures var (s, r) := Decide(cfg, FoldState(cfg, ds), d.position);
            FoldState(cfg, ds + [d]) == Settle(s, r) && Decision(cfg, ds + [d], |ds|) == r
    ensures forall i | 0 <= i < |ds| :: Decision(cfg, ds + [d], i) == Decision(cfg, ds, i)
  {
    assert (ds + [d])[..|ds|] == ds;
    forall i | 0 <= i < |ds| ensures Decision(cfg, ds + [d], i) == Decision(cfg, ds, i) {
      assert (ds + [d])[..i] == ds[..i];
    }
  }

  // ------------------------------------------------------------------ what a run did with a node

  datatype Settlement = Settlement(id: nat, result: Filtered)

  /** The completed deliveries of a node, in order of completion. */
  function Done(log: seq<Event>, node: uint32): seq<Settlement> {
    if log == [] then []
    else
      var e, earlier := log[|log| - 1], Done(log[..|log| - 1], node);
      if e.Completed? && e.result.position.sourceNode == node then earlier + [Settlement(e.id, e.result)] else earlier
  }

  lemma DoneSnoc(log: seq<Event>, e: Event, node: uint32)
    ensures Done(log + [e], node)
         == if e.Completed? && e.result.position.sourceNode == node
            then Done(log, node) + [Settlement(e.id, e.result)] else Done(log, node)
  {
    assert (log + [e])[..|log|] == log;
  }

  /** Everything the filter saw of a node is completed, and its state is the fold's. */
  predicate AtRest(cfg: FilterConfig, f: Filter, fed: seq<Delivery>, node: uint32) {
    && StateOf(f, node) == FoldState(cfg, fed)
    && forall id | id in f.prepared :: f.prepared[id].position.sourceNode != node
  }

  /** The last delivery is decided as the fold decides it, and waits in the memo alone of its node. */
  predicate InFlight(cfg: FilterConfig, f: Filter, fed: seq<Delivery>, node: uint32)
    requires fed != []
  {
    var n := |fed| - 1;
    var d := fed[n];
    && StateOf(f, node) == Decide(cfg, FoldState(cfg, fed[..n]), d.position).0
    && d.id in f.prepared && f.prepared[d.id] == Decision(cfg, fed, n)
    && f.prepared[d.id].position.sourceNode == node
    && forall id | id in f.prepared && f.prepared[id].position.sourceNode == node :: id == d.id
  }

  /** The completed deliveries carry the fold's decisions; the filter is at the fold's state, with at
      most one further delivery decided but not completed. */
  predicate FoldOK(cfg: FilterConfig, f: Filter, log: seq<Event>, node: uint32) {
    var fed, done := Fed(log, node), Done(log, node);
    && |done| <= |fed| <= |done| + 1
    && (forall i | 0 <= i < |done| :: done[i] == Settlement(fed[i].id, Decision(cfg, fed, i)))
    && if |fed| == |done| then AtRest(cfg, f, fed, node) else InFlight(cfg, f, fed, node)
  }

  predicate Offered(cfg: FilterConfig, fed: seq<Delivery>, id: nat, position: Position) {
    exists i | 0 <= i < |fed| :: fed[i].id == id && Decision(cfg, fed, i) == Filtered(position, true)
  }

  /** Every call of Publish offers the fold's filtered position. */
  predicate OffersOK(cfg: FilterConfig, log: seq<Event>, node: uint32) {
    forall k | 0 <= k < |log| && log[k].Attempted? && log[k].offered.sourceNode == node ::
      Offered(cfg, Fed(log, node), log[k].id, log[k].offered)
  }

  // ------------------------------------------------------------------ the filter's part of a pass

  lemma RestToFlight(cfg: FilterConfig, f: Filter, fed: seq<Delivery>, d: Delivery)
    requires AtRest(cfg, f, fed, d.position.sourceNode) && d.id !in f.prepared
    ensures InFlight(cfg, Prepare(cfg, f, d).0, fed + [d], d.position.sourceNode)
  {
    DecideFacts(cfg, StateOf(f, d.position.sourceNode), d.position);
    FoldSnoc(cfg, fed, d);
    assert (fed + [d])[..|fed|] == fed;
    hide Decide, FoldState, Decision;
  }

  lemma OtherPrepared(cfg: FilterConfig, f: Filter, fed: seq<Delivery>, d: Delivery, node: uint32)
    requires d.id !in f.prepared && d.position.sourceNode != node
    ensures AtRest(cfg, f, fed, node) ==> AtRest(cfg, Prepare(cfg, f, d).0, fed, node)
    ensures fed != [] && InFlight(cfg, f, fed, node) ==> InFlight(cfg, Prepare(cfg, f, d).0, fed, node)
  {
    DecideFacts(cfg, StateOf(f, d.position.sourceNode), d.position);
    hide Decide, FoldState, Decision;
  }

  lemma FoldPrepared(cfg: FilterConfig, f: Filter, log: seq<Event>, d: Delivery, node: uint32)
    requires FoldOK(cfg, f, log, node) && d.id !in f.prepared
    requires d.position.sourceNode == node ==> |Fed(log, node)| == |Done(log, node)|
    ensures FoldOK(cfg, Prepare(cfg, f, d).0, log + [Prepared(d)], node)
  {
    FedSnoc(log, Prepared(d), node);
    DoneSnoc(log, Prepared(d), node);
    if d.position.sourceNode == node {
      RestToFlight(cfg, f, Fed(log, node), d);
      FoldSnoc(cfg, Fed(log, node), d);
    } else {
      OtherPrepared(cfg, f, Fed(log, node), d, node);
    }
    hide AtRest, InFlight, Prepare, Fed, Done, Decision;
  }

  lemma FoldAttempted(cfg: FilterConfig, f: Filter, log: seq<Event>, e: Event, node: uint32)
    requires FoldOK(cfg, f, log, node) && e.Attempted?
    ensures FoldOK(cfg, f, log + [e], node)
  {
    FedSnoc(log, e, node);
    DoneSnoc(log, e, node);
    hide Decide, FoldState, Fed, Done;
  }

  lemma CompleteSettles(f: Filter, id: nat, node: uint32)
    requires CanComplete(f, id)
    ensures var r, f' := f.prepared[id], Complete(f, id, f.prepared[id].publish);
            && StateOf(f', node) == (if r.position.sourceNode == node then Settle(StateOf(f, node), r) else StateOf(f, node))
            && f'.prepared == f.prepared - {id}
  {
  }

  /** Completing the last delivery of a fold. */
  lemma FoldSettles(cfg: FilterConfig, ds: seq<Delivery>, n: nat)
    requires |ds| == n + 1
    ensures FoldState(cfg, ds) == Settle(Decide(cfg, FoldState(cfg, ds[..n]), ds[n].position).0, Decision(cfg, ds, n))
  {
    hide Decide, Settle;
  }

  lemma FlightToRest(cfg: FilterConfig, f: Filter, fed: seq<Delivery>, id: nat, node: uint32)
    requires fed != [] && InFlight(cfg, f, fed, node)
    requires CanComplete(f, id) && f.prepared[id].position.sourceNode == node
    ensures AtRest(cfg, Complete(f, id, f.prepared[id].publish), fed, node)
    ensures fed[|fed| - 1].id == id && f.prepared[id] == Decision(cfg, fed, |fed| - 1)
  {
    FoldSettles(cfg, fed, |fed| - 1);
    CompleteSettles(f, id, node);
    hide Complete, StateOf, Settle, Decide, FoldState, Decision;
  }

  lemma OtherCompleted(cfg: FilterConfig, f: Filter, fed: seq<Delivery>, id: nat, node: uint32)
    requires CanComplete(f, id) && f.prepared[id].position.sourceNode != node
    ensures AtRest(cfg, f, fed, node) ==> AtRest(cfg, Complete(f, id, f.prepared[id].publish), fed, node)
    ensures fed != [] && InFlight(cfg, f, fed, node)
        ==> InFlight(cfg, Complete(f, id, f.prepared[id].publish), fed, node)
  {
    CompleteSettles(f, id, node);
    hide Complete, StateOf, Decide, FoldState, Decision;
  }

  lemma NotAtRest(cfg: FilterConfig, f: Filter, fed: seq<Delivery>, id: nat, node: uint32)
    requires id in f.prepared && f.prepared[id].position.sourceNode == node
    ensures !AtRest(cfg, f, fed, node)
  {
    hide FoldState, StateOf;
  }

  lemma FoldCompleted(cfg: FilterConfig, f: Filter, log: seq<Event>, id: nat, node: uint32)
    requires FoldOK(cfg, f, log, node) && CanComplete(f, id)
    ensures FoldOK(cfg, Complete(f, id, f.prepared[id].publish), log + [Completed(id, f.prepared[id])], node)
  {
    hide AtRest, Complete, Fed, Done, Decision, FoldState, Decide, StateOf;
    var e := Completed(id, f.prepared[id]);
    FedSnoc(log, e, node);
    DoneSnoc(log, e, node);
    if f.prepared[id].position.sourceNode == node {
      NotAtRest(cfg, f, Fed(log, node), id, node);
      FlightToRest(cfg, f, Fed(log, node), id, node);
    } else {
      OtherCompleted(cfg, f, Fed(log, node), id, node);
    }
  }

  lemma OfferedGrows(cfg: FilterConfig, fed: seq<Delivery>, d: Delivery, id: nat, position: Position)
    requires Offered(cfg, fed, id, position)
    ensures Offered(cfg, fed + [d], id, position)
  {
    FoldSnoc(cfg, fed, d);
    hide Decision;
    var i :| 0 <= i < |fed| && fed[i].id == id && Decision(cfg, fed, i) == Filtered(position, true);
    assert (fed + [d])[i] == fed[i];
  }

  lemma OffersStep(cfg: FilterConfig, f: Filter, log: seq<Event>, e: Event, node: uint32)
    requires OffersOK(cfg, log, node)
    requires e.Attempted? && e.offered.sourceNode == node ==> Offered(cfg, Fed(log, node), e.id, e.offered)
    ensures OffersOK(cfg, log + [e], node)
  {
    var log', fed := log + [e], Fed(log, node);
    FedSnoc(log, e, node);
    hide Fed, Offered;
    forall k | 0 <= k < |log'| && log'[k].Attempted? && log'[k].offered.sourceNode == node
      ensures Offered(cfg, Fed(log', node), log'[k].id, log'[k].offered)
    {
      assert k < |log| ==> log'[k] == log[k];
      if e.Prepared? && e.delivery.position.sourceNode == node {
        OfferedGrows(cfg, fed, e.delivery, log'[k].id, log'[k].offered);
      }
    }
  }

  // ------------------------------------------------------------------ the store's part: key order

  /** What the filter saw of a node is in key order and finished but for the last; whatever else is
      pending comes later. */
  ghost predicate KeysOK(db: Tables, fed: seq<Delivery>, done: nat, node: uint32)
    requires Linked(db)
  {
    && (forall i | 0 <= i < |fed| :: Matches(db, fed[i]) && fed[i].position.sourceNode == node)
    && (forall i, j | 0 <= i < j < |fed| :: Before(db, fed[i].id, fed[j].id))
    && (forall i | 0 <= i < done && i < |fed| :: !IsPending(db, fed[i].id))
    && (forall id, i | IsPending(db, id) && 0 <= i < |fed| && NodeAt(db, id) == node ::
          id == fed[i].id || Before(db, fed[i].id, id))
  }

  predicate HeadsOK(db: Tables, batch: seq<Delivery>)
    requires Linked(db)
  {
    forall d | d in batch :: IsHead(db, d.id)
  }

  /** Whatever stopped being pending since the process started was completed. */
  ghost predicate SettledOK(db0: Tables, db: Tables, done: seq<Settlement>, node: uint32)
    requires Linked(db)
  {
    forall id | IsDelivery(db, id) && NodeAt(db, id) == node && !IsPending(db, id)
                && (IsDelivery(db0, id) ==> IsPending(db0, id)) ::
      exists i | 0 <= i < |done| :: done[i].id == id
  }

  /** Attempts of one node never go back in key order. */
  predicate AttemptsOK(db: Tables, log: seq<Event>, node: uint32)
    requires Linked(db)
  {
    && (forall k | 0 <= k < |log| && log[k].Attempted? && log[k].offered.sourceNode == node :: IsDelivery(db, log[k].id))
    && (forall k, l | 0 <= k < l < |log| && log[k].Attempted? && log[k].offered.sourceNode == node
                      && log[l].Attempted? && log[l].offered.sourceNode == node ::
          log[k].id == log[l].id || Before(db, log[k].id, log[l].id))
  }

  predicate Grows(db: Tables, db': Tables)
    requires Linked(db) && Linked(db')
  {
    Extends(db, db') && db.deliveries <= db'.deliveries
    && forall e | |db.deliveries| < e <= |db'.deliveries| :: IsPending(db', e)
  }

  /** New deliveries sort after those of their node that were seen before. */
  predicate SortAfter(db: Tables, db': Tables, seen: seq<Delivery>)
    requires Linked(db')
  {
    forall d, e | d in seen && IsDelivery(db', d.id) && |db.deliveries| < e <= |db'.deliveries|
                  && NodeAt(db', d.id) == NodeAt(db', e) :: Before(db', d.id, e)
  }

  lemma KeysGrow(db: Tables, db': Tables, fed: seq<Delivery>, done: nat, node: uint32)
    requires Linked(db) && Linked(db') && Grows(db, db') && SortAfter(db, db', fed) && KeysOK(db, fed, done, node)
    ensures KeysOK(db', fed, done, node)
  {
    hide StoredTime, TextLess;
    forall i | 0 <= i < |fed| ensures Matches(db', fed[i]) {
      assert Matches(db, fed[i]);
    }
    hide Matches;
    forall i, j | 0 <= i < j < |fed| ensures Before(db', fed[i].id, fed[j].id) {
      MatchesNode(db, fed[i]);
      MatchesNode(db, fed[j]);
      ExtendsKeepsOrder(db, db', fed[i].id, fed[j].id);
    }
    forall id, i | IsPending(db', id) && 0 <= i < |fed| && NodeAt(db', id) == node
      ensures id == fed[i].id || Before(db', fed[i].id, id)
    {
      MatchesNode(db, fed[i]);
      ExtendsKeepsKeys(db, db', fed[i].id);
      if IsDelivery(db, id) {
        ExtendsKeepsKeys(db, db', id);
        ExtendsKeepsOrder(db, db', fed[i].id, id);
      } else {
        assert fed[i] in fed;
      }
    }
    forall i | 0 <= i < done && i < |fed| ensures !IsPending(db', fed[i].id) {
      MatchesNode(db, fed[i]);
      ExtendsKeepsKeys(db, db', fed[i].id);
    }
  }

  lemma HeadsGrow(db: Tables, db': Tables, batch: seq<Delivery>)
    requires Linked(db) && Linked(db') && Grows(db, db') && SortAfter(db, db', batch) && HeadsOK(db, batch)
    ensures HeadsOK(db', batch)
  {
    hide TextLess;
    forall d | d in batch ensures IsHead(db', d.id) {
      assert IsHead(db, d.id);
      ExtendsKeepsKeys(db, db', d.id);
      forall e | 1 <= e <= |db'.deliveries| && IsPending(db', e) && NodeAt(db', e) == NodeAt(db', d.id)
        ensures !Before(db', e, d.id)
      {
        if IsDelivery(db, e) {
          ExtendsKeepsKeys(db, db', e);
          ExtendsKeepsOrder(db, db', e, d.id);
        } else {
          BeforeTotal(db', d.id, e);
        }
      }
    }
  }

  lemma SettledGrow(db0: Tables, db: Tables, db': Tables, done: seq<Settlement>, node: uint32)
    requires Linked(db) && Linked(db') && Grows(db, db') && SettledOK(db0, db, done, node)
    ensures SettledOK(db0, db', done, node)
  {
    forall id | IsDelivery(db', id) && NodeAt(db', id) == node && !IsPending(db', id)
                && (IsDelivery(db0, id) ==> IsPending(db0, id))
      ensures exists i | 0 <= i < |done| :: done[i].id == id
    {
      assert IsDelivery(db, id);
      ExtendsKeepsKeys(db, db', id);
      assert !IsPending(db, id);
    }
  }

  lemma AttemptsGrow(db: Tables, db': Tables, log: seq<Event>, node: uint32)
    requires Linked(db) && Linked(db') && Extends(db, db') && AttemptsOK(db, log, node)
    ensures AttemptsOK(db', log, node)
  {
    hide TextLess;
    forall k, l | 0 <= k < l < |log| && log[k].Attempted? && log[k].offered.sourceNode == node
                  && log[l].Attempted? && log[l].offered.sourceNode == node
      ensures log[k].id == log[l].id || Before(db', log[k].id, log[l].id)
    {
      ExtendsKeepsOrder(db, db', log[k].id, log[l].id);
    }
  }

  // ------------------------------------------------------------------ the store's part of a pass

  /** The head of a node comes after everything already seen of it. */
  lemma KeysPrepared(db: Tables, fed: seq<Delivery>, d: Delivery, node: uint32)
    requires Linked(db) && KeysOK(db, fed, |fed|, node)
    requires IsHead(db, d.id) && Matches(db, d) && d.position.sourceNode == node
    ensures KeysOK(db, fed + [d], |fed|, node)
  {
    hide TextLess;
    MatchesNode(db, d);
    hide Matches;
    var fed' := fed + [d];
    forall i, j | 0 <= i < j < |fed'| ensures Before(db, fed'[i].id, fed'[j].id) {
      assert fed'[i] == fed[i];
    }
    forall id, i | IsPending(db, id) && 0 <= i < |fed'| && NodeAt(db, id) == node
      ensures id == fed'[i].id || Before(db, fed'[i].id, id)
    {
      if i == |fed| {
        BeforeTotal(db, d.id, id);
      }
    }
  }

  lemma TouchesLinks(db: Tables, db': Tables, id: nat, state: DeliveryState)
    requires Linked(db) && IsPending(db, id) && Touches(db, db', id, state) && state != Failed
    ensures Linked(db') && Extends(db, db') && Extends(db', db) == (state == Pending)
    ensures forall e | 1 <= e <= |db.deliveries| && e != id :: IsPending(db', e) == IsPending(db, e)
    ensures IsPending(db', id) == (state == Pending)
  {
  }

  lemma KeysTouched(db: Tables, db': Tables, id: nat, state: DeliveryState, fed: seq<Delivery>, done: nat, node: uint32)
    requires Linked(db) && Linked(db') && IsPending(db, id) && Touches(db, db', id, state) && state != Failed
    requires KeysOK(db, fed, done, node)
    ensures KeysOK(db', fed, done, node)
  {
    TouchesLinks(db, db', id, state);
    hide StoredTime, TextLess, Touches, Extends;
    forall i | 0 <= i < |fed| ensures Matches(db', fed[i]) {
      assert Matches(db, fed[i]);
      TouchedMatches(db, db', id, state, fed[i]);
    }
    hide Matches;
    forall i, j | 0 <= i < j < |fed| ensures Before(db', fed[i].id, fed[j].id) {
      MatchesNode(db, fed[i]);
      MatchesNode(db, fed[j]);
      ExtendsKeepsOrder(db, db', fed[i].id, fed[j].id);
    }
    forall e, i | IsPending(db', e) && 0 <= i < |fed| && NodeAt(db', e) == node
      ensures e == fed[i].id || Before(db', fed[i].id, e)
    {
      MatchesNode(db, fed[i]);
      TouchedKeeps(db, db', id, state, e);
      ExtendsKeepsKeys(db, db', e);
      ExtendsKeepsOrder(db, db', fed[i].id, e);
    }
    forall i | 0 <= i < done && i < |fed| ensures !IsPending(db', fed[i].id) {
      MatchesNode(db, fed[i]);
      ExtendsKeepsKeys(db, db', fed[i].id);
    }
  }

  lemma TouchedMatches(db: Tables, db': Tables, id: nat, state: DeliveryState, d: Delivery)
    requires Linked(db) && Linked(db') && IsPending(db, id) && Touches(db, db', id, state) && Matches(db, d)
    ensures Matches(db', d)
  {
    hide StoredTime;
  }

  lemma TouchedKeeps(db: Tables, db': Tables, id: nat, state: DeliveryState, e: nat)
    requires IsDelivery(db, id) && Touches(db, db', id, state)
    ensures IsDelivery(db', e) <==> IsDelivery(db, e)
  {
  }

  lemma KeysCompleted(db: Tables, fed: seq<Delivery>, id: nat, node: uint32)
    requires Linked(db) && fed != [] && KeysOK(db, fed, |fed| - 1, node)
    requires fed[|fed| - 1].id == id && !IsPending(db, id)
    ensures KeysOK(db, fed, |fed|, node)
  {
    hide Matches, Before;
  }

  lemma HeadsTouched(db: Tables, db': Tables, batch: seq<Delivery>, id: nat, state: DeliveryState)
    requires Linked(db) && Linked(db') && IsPending(db, id) && Touches(db, db', id, state) && state != Failed
    requires HeadsOK(db, batch)
    requires forall d | d in batch :: d.id != id
    ensures HeadsOK(db', batch)
  {
    TouchesLinks(db, db', id, state);
    hide TextLess, Touches;
    forall d | d in batch ensures IsHead(db', d.id) {
      assert IsHead(db, d.id);
      ExtendsKeepsKeys(db, db', d.id);
      forall e | 1 <= e <= |db'.deliveries| && IsPending(db', e) && NodeAt(db', e) == NodeAt(db', d.id)
        ensures !Before(db', e, d.id)
      {
        TouchedKeeps(db, db', id, state, e);
        ExtendsKeepsKeys(db, db', e);
        ExtendsKeepsOrder(db, db', e, d.id);
      }
    }
  }

  lemma SettledTouched(db0: Tables, db: Tables, db': Tables, id: nat, state: DeliveryState,
                       done: seq<Settlement>, done': seq<Settlement>, node: uint32)
    requires Linked(db) && Linked(db') && IsPending(db, id) && Touches(db, db', id, state) && state != Failed
    requires SettledOK(db0, db, done, node) && done <= done'
    requires state == Delivered && NodeAt(db, id) == node ==> done' != [] && done'[|done'| - 1].id == id
    ensures SettledOK(db0, db', done', node)
  {
    TouchesLinks(db, db', id, state);
    forall e | IsDelivery(db', e) && NodeAt(db', e) == node && !IsPending(db', e)
               && (IsDelivery(db0, e) ==> IsPending(db0, e))
      ensures exists i | 0 <= i < |done'| :: done'[i].id == e
    {
      TouchedKeeps(db, db', id, state, e);
      ExtendsKeepsKeys(db, db', e);
      if e == id {
        assert done'[|done'| - 1].id == e;
      } else {
        var i :| 0 <= i < |done| && done[i].id == e;
        assert done'[i] == done[i];
      }
    }
  }

  /** A new attempt is of the delivery in flight, which no attempted one follows. */
  lemma AttemptsStep(cfg: FilterConfig, db: Tables, log: seq<Event>, e: Event, fed: seq<Delivery>, done: nat, node: uint32)
    requires Linked(db) && AttemptsOK(db, log, node) && KeysOK(db, fed, done, node)
    requires OffersOK(cfg, log, node) && fed == Fed(log, node)
    requires e.Attempted? && e.offered.sourceNode == node ==> fed != [] && e.id == fed[|fed| - 1].id
    ensures AttemptsOK(db, log + [e], node)
  {
    hide TextLess, Fed, Decision, Matches, NodeAt;
    var log' := log + [e];
    if e.Attempted? && e.offered.sourceNode == node {
      MatchesNode(db, fed[|fed| - 1]);
      forall k | 0 <= k < |log| && log[k].Attempted? && log[k].offered.sourceNode == node
        ensures log[k].id == e.id || Before(db, log[k].id, e.id)
      {
        assert Offered(cfg, fed, log[k].id, log[k].offered);
        var i :| 0 <= i < |fed| && fed[i].id == log[k].id;
      }
    }
    forall k | 0 <= k < |log| ensures log'[k] == log[k] {
    }
  }

  // ------------------------------------------------------------------ the invariant of ordered runs

  ghost predicate NodeOK(cfg: FilterConfig, db0: Tables, db: Tables, f: Filter, log: seq<Event>, node: uint32)
    requires Linked(db)
  {
    && FoldOK(cfg, f, log, node)
    && OffersOK(cfg, log, node)
    && KeysOK(db, Fed(log, node), |Done(log, node)|, node)
    && SettledOK(db0, db, Done(log, node), node)
    && AttemptsOK(db, log, node)
  }

  ghost predicate Ordered(cfg: FilterConfig, db0: Tables, s: World) {
    && Linked(s.db)
    && HeadsOK(s.db, s.batch)
    && forall node: uint32 :: NodeOK(cfg, db0, s.db, s.filter, s.log, node)
  }

  lemma NothingInFlight(cfg: FilterConfig, db: Tables, f: Filter, log: seq<Event>, d: Delivery)
    requires Linked(db) && MemoOK(db, f) && d.id !in f.prepared && IsHead(db, d.id)
    requires NodeAt(db, d.id) == d.position.sourceNode
    requires FoldOK(cfg, f, log, d.position.sourceNode)
    requires KeysOK(db, Fed(log, d.position.sourceNode), |Done(log, d.position.sourceNode)|, d.position.sourceNode)
    ensures |Fed(log, d.position.sourceNode)| == |Done(log, d.position.sourceNode)|
  {
    hide TextLess, Decision, Decide, FoldState, Fed, Done, Matches, StateOf;
  }

  lemma NodePrepared(cfg: FilterConfig, db0: Tables, db: Tables, f: Filter, log: seq<Event>, d: Delivery, node: uint32)
    requires Linked(db) && MemoOK(db, f) && NodeOK(cfg, db0, db, f, log, node)
    requires d.id !in f.prepared && IsHead(db, d.id) && Matches(db, d)
    ensures NodeOK(cfg, db0, db, Prepare(cfg, f, d).0, log + [Prepared(d)], node)
  {
    MatchesNode(db, d);
    if d.position.sourceNode == node {
      NothingInFlight(cfg, db, f, log, d);
      KeysPrepared(db, Fed(log, node), d, node);
    }
    FoldPrepared(cfg, f, log, d, node);
    OffersStep(cfg, f, log, Prepared(d), node);
    FedSnoc(log, Prepared(d), node);
    DoneSnoc(log, Prepared(d), node);
    AttemptsOther(db, log, Prepared(d), node);
    hide FoldOK, OffersOK, KeysOK, SettledOK, AttemptsOK, Prepare, Fed, Done;
  }

  lemma AttemptsOther(db: Tables, log: seq<Event>, e: Event, node: uint32)
    requires Linked(db) && AttemptsOK(db, log, node) && !e.Attempted?
    ensures AttemptsOK(db, log + [e], node)
  {
    hide Before;
    forall k | 0 <= k < |log| ensures (log + [e])[k] == log[k] {
    }
  }

  /** A memo entry of a node is the delivery in flight of that node. */
  lemma EntryInFlight(cfg: FilterConfig, f: Filter, log: seq<Event>, id: nat, node: uint32)
    requires FoldOK(cfg, f, log, node)
    requires id in f.prepared && f.prepared[id].position.sourceNode == node
    ensures var fed := Fed(log, node);
            |fed| == |Done(log, node)| + 1 && fed[|fed| - 1].id == id
            && f.prepared[id] == Decision(cfg, fed, |fed| - 1)
  {
    hide Decision, Decide, FoldState, Fed, Done, StateOf;
  }

  lemma NodeAttempted(cfg: FilterConfig, db0: Tables, db: Tables, f: Filter, log: seq<Event>, e: Event, node: uint32)
    requires Linked(db) && NodeOK(cfg, db0, db, f, log, node)
    requires e.Attempted? && e.id in f.prepared && f.prepared[e.id] == Filtered(e.offered, true)
    ensures NodeOK(cfg, db0, db, f, log + [e], node)
  {
    var fed := Fed(log, node);
    if e.offered.sourceNode == node {
      EntryInFlight(cfg, f, log, e.id, node);
      hide Decision;
      assert Offered(cfg, fed, e.id, e.offered);
    }
    FoldAttempted(cfg, f, log, e, node);
    OffersStep(cfg, f, log, e, node);
    AttemptsStep(cfg, db, log, e, fed, |Done(log, node)|, node);
    FedSnoc(log, e, node);
    DoneSnoc(log, e, node);
    hide FoldOK, OffersOK, KeysOK, SettledOK, AttemptsOK, Fed, Done;
  }

  lemma NodeDeferred(cfg: FilterConfig, db0: Tables, db: Tables, db': Tables, f: Filter, log: seq<Event>, id: nat, node: uint32)
    requires Linked(db) && Linked(db') && NodeOK(cfg, db0, db, f, log, node)
    requires IsPending(db, id) && Touches(db, db', id, Pending)
    ensures NodeOK(cfg, db0, db', f, log, node)
  {
    TouchesLinks(db, db', id, Pending);
    KeysTouched(db, db', id, Pending, Fed(log, node), |Done(log, node)|, node);
    SettledTouched(db0, db, db', id, Pending, Done(log, node), Done(log, node), node);
    AttemptsGrow(db, db', log, node);
    hide FoldOK, OffersOK, KeysOK, SettledOK, AttemptsOK, Fed, Done;
  }

  lemma NodeCompleted(cfg: FilterConfig, db0: Tables, db: Tables, db': Tables, f: Filter, log: seq<Event>, id: nat, node: uint32)
    requires Linked(db) && Linked(db') && NodeOK(cfg, db0, db, f, log, node)
    requires IsPending(db, id) && Touches(db, db', id, Delivered)
    requires CanComplete(f, id) && f.prepared[id].position.sourceNode == NodeAt(db, id)
    ensures var r := f.prepared[id];
            NodeOK(cfg, db0, db', Complete(f, id, r.publish), log + [Completed(id, r)], node)
  {
    hide FoldOK, OffersOK, KeysOK, SettledOK, AttemptsOK, Fed, Done, Complete, Touches, Decision;
    var r := f.prepared[id];
    var e, fed, done := Completed(id, r), Fed(log, node), Done(log, node);
    TouchesLinks(db, db', id, Delivered);
    FedSnoc(log, e, node);
    DoneSnoc(log, e, node);
    KeysTouched(db, db', id, Delivered, fed, |done|, node);
    if NodeAt(db, id) == node {
      EntryInFlight(cfg, f, log, id, node);
      KeysCompleted(db', fed, id, node);
    }
    SettledTouched(db0, db, db', id, Delivered, done, Done(log + [e], node), node);
    AttemptsGrow(db, db', log, node);
    AttemptsOther(db', log, e, node);
    FoldCompleted(cfg, f, log, id, node);
    OffersStep(cfg, f, log, e, node);
  }

  // ------------------------------------------------------------------ in-order runs

  /** No delivery of the node that the worker has seen, in its snapshot or in its filter, is later. */
  predicate ArrivesInOrder(s: World, p: Position) {
    forall d | d in s.batch + Fed(s.log, p.sourceNode) ::
      d.position.sourceNode == p.sourceNode ==> !TextLess(FormatTime(p.sourceTime), FormatTime(d.position.sourceTime))
  }

  predicate AddsDelivery(db: Tables, step: Step) {
    && step.Arrive? && step.position.Some? && step.enqueue
    && OnEarth(step.position.value.latitude, step.position.value.longitude)
    && FindKey(db.positions, PositionKey(step.position.value)).None?
  }

  /** The hypothesis of the ordered theorems; it binds only positions that add a delivery. */
  predicate InOrderStep(s: World, step: Step) {
    AddsDelivery(s.db, step) ==> ArrivesInOrder(s, step.position.value)
  }

  predicate InOrderRun(cfg: FilterConfig, s: World, steps: seq<Step>)
    decreases |steps|
  {
    steps != [] ==> InOrderStep(s, steps[0]) && InOrderRun(cfg, Next(cfg, s, steps[0]), steps[1..])
  }

  /** The rows a transaction adds. */
  lemma ArchiveRows(db: Tables, packet: Packet, position: Option<Position>, enqueue: bool, now: Instant)
    requires Archive(db, packet, position, enqueue, now).Some?
    ensures var db' := Archive(db, packet, position, enqueue, now).value.0;
            && db.positions <= db'.positions
            && if AddsDelivery(db, Arrive(packet, position, enqueue, now))
               then var p := position.value;
                    && |db'.positions| == |db.positions| + 1
                    && db'.positions[|db.positions|].sourceNode == p.sourceNode
                    && db'.positions[|db.positions|].sourceTime == FormatTime(p.sourceTime)
                    && db'.deliveries == db.deliveries + [NewDelivery(|db'.positions|, now)]
               else db'.deliveries == db.deliveries
  {
    hide FormatTime, PositionKey, FindKey, OnEarth, NewDelivery;
  }

  lemma AddedArchives(db: Tables, packet: Packet, p: Position, now: Instant)
    requires AddsDelivery(db, Arrive(packet, Some(p), true, now))
    ensures Archive(db, packet, Some(p), true, now).Some?
  {
    hide FormatTime, PositionKey, FindKey, OnEarth;
  }

  /** What the queries see of an archived position. */
  lemma ArchiveAppends(db: Tables, packet: Packet, position: Option<Position>, enqueue: bool, now: Instant)
    requires Linked(db) && Archive(db, packet, position, enqueue, now).Some?
    ensures var db' := Archive(db, packet, position, enqueue, now).value.0;
            && Linked(db') && Grows(db, db')
            && if AddsDelivery(db, Arrive(packet, position, enqueue, now))
               then |db'.deliveries| == |db.deliveries| + 1
                    && NodeAt(db', |db'.deliveries|) == position.value.sourceNode
                    && TimeAt(db', |db'.deliveries|) == FormatTime(position.value.sourceTime)
               else db'.deliveries == db.deliveries
  {
    hide FormatTime, Archive, Extends, AddsDelivery;
    ArchiveExtends(db, packet, position, enqueue, now);
    ArchiveRows(db, packet, position, enqueue, now);
  }

  lemma UpsertGrows(db: Tables, node: uint32, shortName: string, longName: string)
    requires Linked(db)
    ensures var db' := UpsertNode(db, node, shortName, longName);
            Linked(db') && Grows(db, db') && |db'.deliveries| == |db.deliveries|
  {
    UpsertExtends(db, node, shortName, longName);
    hide TrimSpace, NodeID;
  }

  lemma OrderedGrows(cfg: FilterConfig, db0: Tables, s: World, db': Tables)
    requires Ordered(cfg, db0, s) && Linked(db') && Grows(s.db, db') && SortAfter(s.db, db', s.batch)
    requires forall node: uint32 :: SortAfter(s.db, db', Fed(s.log, node))
    ensures Ordered(cfg, db0, s.(db := db'))
  {
    hide FoldOK, OffersOK, KeysOK, SettledOK, AttemptsOK, HeadsOK, Grows, SortAfter, Fed, Done;
    GrowsExtends(s.db, db');
    HeadsGrow(s.db, db', s.batch);
    forall node: uint32 ensures NodeOK(cfg, db0, db', s.filter, s.log, node) {
      assert NodeOK(cfg, db0, s.db, s.filter, s.log, node);
      assert SortAfter(s.db, db', Fed(s.log, node));
      KeysGrow(s.db, db', Fed(s.log, node), |Done(s.log, node)|, node);
      SettledGrow(db0, s.db, db', Done(s.log, node), node);
      AttemptsGrow(s.db, db', s.log, node);
    }
  }

  // ------------------------------------------------------------------ exactly which arrivals keep the order

  /** A delivery carries the time its row is sorted by. */
  lemma SeenTime(db: Tables, d: Delivery)
    requires Valid(db) && Linked(db) && Matches(db, d)
    ensures FormatTime(d.position.sourceTime) == TimeAt(db, d.id) && d.position.sourceNode == NodeAt(db, d.id)
  {
    hide FormatTime, ParseTime, KeyText, ValidDeliveries;
    assert ValidPosition(PositionFor(db, d.id), |db.packets|);
  }

  /** Against one seen delivery: the newest one sorts after it exactly when its time is not less. */
  lemma NewestAfter(db: Tables, db': Tables, d: Delivery, time: string)
    requires Valid(db) && Linked(db) && Matches(db, d) && Linked(db') && Extends(db, db')
    requires |db'.deliveries| == |db.deliveries| + 1 && TimeAt(db', |db'.deliveries|) == time
    ensures IsDelivery(db', d.id) && NodeAt(db', d.id) == d.position.sourceNode
    ensures Before(db', d.id, |db'.deliveries|) <==> !TextLess(time, FormatTime(d.position.sourceTime))
  {
    hide Valid, FormatTime, TextLess, Extends, Matches;
    SeenTime(db, d);
    MatchesNode(db, d);
    ExtendsKeepsKeys(db, db', d.id);
    BeforeTotal(db', d.id, |db'.deliveries|);
  }

  lemma FedOfNode(log: seq<Event>, node: uint32)
    ensures forall d | d in Fed(log, node) :: d.position.sourceNode == node
    decreases |log|
  {
    if log != [] {
      FedOfNode(log[..|log| - 1], node);
    }
  }

  /** Everything seen of a node, except by another node's filter, still describes its row. */
  lemma SeenMatches(cfg: FilterConfig, db0: Tables, s: World, node: uint32)
    requires Sound(s) && Ordered(cfg, db0, s)
    ensures forall d | d in s.batch + Fed(s.log, node) :: Matches(s.db, d)
  {
    hide Valid, MemoOK, Matches, Fed, FoldOK, OffersOK, SettledOK, AttemptsOK, HeadsOK;
    assert NodeOK(cfg, db0, s.db, s.filter, s.log, node);
    forall d | d in s.batch ensures Matches(s.db, d) {
      var i :| 0 <= i < |s.batch| && s.batch[i] == d;
    }
  }

  /** One new delivery sorts after what was seen exactly when it arrives in order. */
  lemma OneSortsAfter(db: Tables, db': Tables, seen: seq<Delivery>, node: uint32, time: string)
    requires Valid(db) && Linked(db) && Linked(db') && Extends(db, db')
    requires forall d | d in seen :: Matches(db, d)
    requires |db'.deliveries| == |db.deliveries| + 1
    requires NodeAt(db', |db'.deliveries|) == node && TimeAt(db', |db'.deliveries|) == time
    ensures SortAfter(db, db', seen)
       <==> forall d | d in seen ::
              d.position.sourceNode == node ==> !TextLess(time, FormatTime(d.position.sourceTime))
  {
    hide Valid, FormatTime, TextLess, Extends, Matches, Before, Linked;
    forall d | d in seen
      ensures IsDelivery(db', d.id) && NodeAt(db', d.id) == d.position.sourceNode
      ensures Before(db', d.id, |db'.deliveries|) <==> !TextLess(time, FormatTime(d.position.sourceTime))
    {
      NewestAfter(db, db', d, time);
    }
  }

  lemma SortAfterSplits(db: Tables, db': Tables, a: seq<Delivery>, b: seq<Delivery>)
    requires Linked(db')
    ensures SortAfter(db, db', a + b) <==> SortAfter(db, db', a) && SortAfter(db, db', b)
  {
    hide Before, NodeAt;
    assert forall d | d in a :: d in a + b;
    assert forall d | d in b :: d in a + b;
  }

  /** Deliveries of another node are no bound for the new one. */
  lemma OthersSortAfter(db: Tables, db': Tables, seen: seq<Delivery>, node: uint32)
    requires Linked(db) && Linked(db') && Extends(db, db')
    requires forall d | d in seen :: Matches(db, d) && d.position.sourceNode == node
    requires |db'.deliveries| == |db.deliveries| + 1 && NodeAt(db', |db'.deliveries|) != node
    ensures SortAfter(db, db', seen)
  {
    hide Extends, Matches, Before, Linked;
    forall d | d in seen && IsDelivery(db', d.id) ensures NodeAt(db', d.id) == node {
      MatchesNode(db, d);
      ExtendsKeepsKeys(db, db', d.id);
    }
  }

  /** The order is broken by a new delivery that does not sort after what was seen. */
  lemma OrderedSortsAfter(cfg: FilterConfig, db0: Tables, s: World, db': Tables, node: uint32)
    requires Sound(s) && Ordered(cfg, db0, s) && Linked(db') && Grows(s.db, db')
    requires |db'.deliveries| == |s.db.deliveries| + 1 && NodeAt(db', |db'.deliveries|) == node
    requires Ordered(cfg, db0, s.(db := db'))
    ensures SortAfter(s.db, db', s.batch + Fed(s.log, node))
  {
    hide Valid, MemoOK, Fed, FoldOK, OffersOK, SettledOK, AttemptsOK, TextLess, Matches, BatchOK;
    var n, seen := |db'.deliveries|, s.batch + Fed(s.log, node);
    assert NodeOK(cfg, db0, db', s.filter, s.log, node);
    SeenMatches(cfg, db0, s, node);
    forall d | d in seen && IsDelivery(db', d.id) && NodeAt(db', d.id) == node ensures Before(db', d.id, n) {
      MatchesNode(s.db, d);
      BeforeTotal(db', d.id, n);
    }
  }

  /** A new delivery keeps the invariant of ordered runs if and only if it arrives in order: no delivery of
      its node that the worker holds in its snapshot, or ever fed to its filter, is later as text. */
  lemma ArrivalKeepsOrder(cfg: FilterConfig, db0: Tables, s: World, packet: Packet, p: Position, now: Instant)
    requires Sound(s) && Ordered(cfg, db0, s) && AddsDelivery(s.db, Arrive(packet, Some(p), true, now))
    ensures Ordered(cfg, db0, Next(cfg, s, Arrive(packet, Some(p), true, now))) <==> ArrivesInOrder(s, p)
  {
    hide Valid, BatchOK, MemoOK, Matches, Ordered, Grows, FormatTime, FindKey, PositionKey, TextLess, SortAfter, Fed, NodeAt,
         TimeAt, Linked, Sound, Archive;
    SoundParts(s);
    AddedArchives(s.db, packet, p, now);
    var db' := Archive(s.db, packet, Some(p), true, now).value.0;
    ArchiveAppends(s.db, packet, Some(p), true, now);
    GrowsExtends(s.db, db');
    SeenMatches(cfg, db0, s, p.sourceNode);
    OneSortsAfter(s.db, db', s.batch + Fed(s.log, p.sourceNode), p.sourceNode, FormatTime(p.sourceTime));
    if SortAfter(s.db, db', s.batch + Fed(s.log, p.sourceNode)) {
      SeenKeepsOrder(cfg, db0, s, db', p.sourceNode);
    }
    if Ordered(cfg, db0, s.(db := db')) {
      OrderedSortsAfter(cfg, db0, s, db', p.sourceNode);
    }
  }

  lemma SoundParts(s: World)
    requires Sound(s)
    ensures Valid(s.db) && Linked(s.db)
  {
    hide Valid;
  }

  lemma GrowsExtends(db: Tables, db': Tables)
    requires Linked(db) && Linked(db') && Grows(db, db')
    ensures Extends(db, db')
  {
  }

  lemma SeenKeepsOrder(cfg: FilterConfig, db0: Tables, s: World, db': Tables, node: uint32)
    requires Sound(s) && Ordered(cfg, db0, s) && Linked(db') && Grows(s.db, db')
    requires |db'.deliveries| == |s.db.deliveries| + 1 && NodeAt(db', |db'.deliveries|) == node
    requires SortAfter(s.db, db', s.batch + Fed(s.log, node))
    ensures Ordered(cfg, db0, s.(db := db'))
  {
    hide Sound, Ordered, SortAfter, Matches, Fed, NodeAt, Grows;
    SoundParts(s);
    GrowsExtends(s.db, db');
    SortAfterSplits(s.db, db', s.batch, Fed(s.log, node));
    forall m: uint32 ensures SortAfter(s.db, db', Fed(s.log, m)) {
      if m != node {
        SeenMatches(cfg, db0, s, m);
        FedOfNode(s.log, m);
        OthersSortAfter(s.db, db', Fed(s.log, m), m);
      }
    }
    OrderedGrows(cfg, db0, s, db');
  }

  lemma NothingNew(cfg: FilterConfig, db0: Tables, s: World, db': Tables)
    requires Ordered(cfg, db0, s) && Linked(db') && Grows(s.db, db') && |db'.deliveries| == |s.db.deliveries|
    ensures Ordered(cfg, db0, s.(db := db'))
  {
    hide Fed, NodeOK, Before, NodeAt, HeadsOK, Grows;
    OrderedGrows(cfg, db0, s, db');
  }

  /** The sufficient condition that speaks of the store alone: the position is not earlier, as text, than
      any delivery of its node. */
  lemma NotEarlierIsInOrder(cfg: FilterConfig, db0: Tables, s: World, p: Position)
    requires Sound(s) && Ordered(cfg, db0, s)
    requires forall d | IsDelivery(s.db, d) && NodeAt(s.db, d) == p.sourceNode ::
               !TextLess(FormatTime(p.sourceTime), TimeAt(s.db, d))
    ensures ArrivesInOrder(s, p)
  {
    hide Valid, BatchOK, MemoOK, Matches, Ordered, FormatTime, TextLess, Fed, TimeAt, NodeAt;
    SeenMatches(cfg, db0, s, p.sourceNode);
    forall d | d in s.batch + Fed(s.log, p.sourceNode) && d.position.sourceNode == p.sourceNode
      ensures !TextLess(FormatTime(p.sourceTime), FormatTime(d.position.sourceTime))
    {
      SeenTime(s.db, d);
      MatchesNode(s.db, d);
    }
  }

  lemma NodePass(cfg: FilterConfig, db0: Tables, s: World, turn: Turn, s': World, node: uint32)
    requires Linked(s.db) && Linked(s'.db) && s.batch != [] && MemoOK(s.db, s.filter)
    requires IsHead(s.db, s.batch[0].id) && Matches(s.db, s.batch[0])
    requires Passes(cfg, s, turn, s')
    requires NodeOK(cfg, db0, s.db, s.filter, s.log, node)
    ensures NodeOK(cfg, db0, s'.db, s'.filter, s'.log, node)
  {
    hide NodeOK, Touches, Complete, Matches, IsHead, TextLess;
    var d := s.batch[0];
    var (f, r) := Prepare(cfg, s.filter, d);
    MatchesNode(s.db, d);
    HeadIsPending(s.db, d.id);
    PrepareMemo(cfg, s.db, s.filter, d);
    var log := if d.id in s.filter.prepared then s.log else s.log + [Prepared(d)];
    if d.id !in s.filter.prepared {
      NodePrepared(cfg, db0, s.db, s.filter, s.log, d, node);
    }
    hide Prepare, MemoOK;
    assert NodeOK(cfg, db0, s.db, f, log, node);
    if r.publish {
      NodeAttempted(cfg, db0, s.db, f, log, Attempted(d.id, r.position, turn.published), node);
    }
    assert NodeOK(cfg, db0, s.db, f, LogAfter(s, r, turn), node);
    match OutcomeOf(r, turn)
    case Aborted =>
    case Deferred => NodeDeferred(cfg, db0, s.db, s'.db, f, LogAfter(s, r, turn), d.id, node);
    case Finished => NodeCompleted(cfg, db0, s.db, s'.db, f, LogAfter(s, r, turn), d.id, node);
  }

  lemma HeadsPass(cfg: FilterConfig, s: World, turn: Turn, s': World)
    requires Sound(s) && s.batch != [] && Linked(s'.db) && HeadsOK(s.db, s.batch)
    requires IsPending(s.db, s.batch[0].id) && Passes(cfg, s, turn, s')
    ensures HeadsOK(s'.db, s'.batch)
  {
    hide Prepare, Complete, LogAfter, Valid, MemoOK, IsHead, Touches, StoredTime;
    var d, rest := s.batch[0], s.batch[1..];
    forall e | e in rest ensures e.id != d.id {
      var i :| 1 <= i < |s.batch| && s.batch[i] == e;
      assert Matches(s.db, e) && Matches(s.db, d);
    }
    match OutcomeOf(Prepare(cfg, s.filter, d).1, turn)
    case Aborted =>
    case Deferred => HeadsTouched(s.db, s'.db, rest, d.id, Pending);
    case Finished => HeadsTouched(s.db, s'.db, rest, d.id, Delivered);
  }

  lemma OrderedPass(cfg: FilterConfig, db0: Tables, s: World, turn: Turn, s': World)
    requires Sound(s) && Ordered(cfg, db0, s) && s.batch != [] && IsPending(s.db, s.batch[0].id)
    requires Passes(cfg, s, turn, s') && Sound(s')
    ensures Ordered(cfg, db0, s')
  {
    hide Valid, BatchOK, MemoOK, Matches, HeadsOK, NodeOK, Passes;
    HeadsPass(cfg, s, turn, s');
    FirstIsHead(s);
    FirstIsPending(s);
    forall node: uint32 ensures NodeOK(cfg, db0, s'.db, s'.filter, s'.log, node) {
      assert NodeOK(cfg, db0, s.db, s.filter, s.log, node);
      NodePass(cfg, db0, s, turn, s', node);
    }
  }

  lemma OrderedArrival(cfg: FilterConfig, db0: Tables, s: World, step: Step)
    requires Sound(s) && Ordered(cfg, db0, s) && step.Arrive? && InOrderStep(s, step)
    ensures Ordered(cfg, db0, Next(cfg, s, step))
  {
    hide Sound, Ordered, ArrivesInOrder, FormatTime, FindKey, PositionKey, Linked, Grows, NodeAt, TimeAt, Archive;
    SoundParts(s);
    if AddsDelivery(s.db, step) {
      ArrivalKeepsOrder(cfg, db0, s, step.packet, step.position.value, step.now);
    } else if Archive(s.db, step.packet, step.position, step.enqueue, step.now).Some? {
      ArchiveAppends(s.db, step.packet, step.position, step.enqueue, step.now);
      NothingNew(cfg, db0, s, Archive(s.db, step.packet, step.position, step.enqueue, step.now).value.0);
    }
  }

  lemma OrderedStep(cfg: FilterConfig, db0: Tables, s: World, step: Step)
    requires Sound(s) && Ordered(cfg, db0, s) && InOrderStep(s, step)
    ensures Ordered(cfg, db0, Next(cfg, s, step))
  {
    hide Valid, BatchOK, MemoOK, Matches, HeadsOK, NodeOK, Process, InOrderStep, Grows, FormatTime, Archive, UpsertNode,
         TakeSnapshot, IsPending;
    var s' := Next(cfg, s, step);
    SoundStep(cfg, s, step);
    match step
    case Arrive(_, _, _, _) => OrderedArrival(cfg, db0, s, step);
    case Rename(node, shortName, longName) =>
      UpsertGrows(s.db, node, shortName, longName);
      NothingNew(cfg, db0, s, s'.db);
    case Snapshot(now) =>
      if s.batch == [] {
        SnapshotIsHeads(s, now);
      }
    case Attempt(turn) =>
      if s.batch != [] {
        FirstIsPending(s);
        ProcessPasses(cfg, s, turn);
        OrderedPass(cfg, db0, s, turn, s');
      }
  }

  lemma FirstIsHead(s: World)
    requires Linked(s.db) && s.batch != [] && HeadsOK(s.db, s.batch)
    ensures IsHead(s.db, s.batch[0].id)
  {
    hide IsHead;
  }

  lemma SnapshotIsHeads(s: World, now: Instant)
    requires Valid(s.db) && Linked(s.db)
    ensures var s' := TakeSnapshot(s, now);
            s' == s.(batch := s'.batch) && HeadsOK(s.db, s'.batch)
  {
    SnapshotBatch(s.db, FormatTime(now));
    hide Valid, FormatTime, IsHead, PendingDeliveries, BatchOK, IsDue;
  }

  /** Nothing has happened yet. */
  lemma OrderedStart(cfg: FilterConfig, db: Tables)
    requires Valid(db)
    ensures Ordered(cfg, db, Start(db))
  {
    ValidIsLinked(db);
    hide Valid, IsHead;
  }

  lemma {:induction false} OrderedRun(cfg: FilterConfig, db0: Tables, s: World, steps: seq<Step>)
    requires Sound(s) && Ordered(cfg, db0, s) && InOrderRun(cfg, s, steps)
    ensures Sound(Run(cfg, s, steps)) && Ordered(cfg, db0, Run(cfg, s, steps))
    decreases |steps|
  {
    hide Sound, Ordered, InOrderStep, Next;
    if steps != [] {
      SoundStep(cfg, s, steps[0]);
      OrderedStep(cfg, db0, s, steps[0]);
      OrderedRun(cfg, db0, Next(cfg, s, steps[0]), steps[1..]);
    }
  }
}
