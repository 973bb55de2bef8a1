/** What the filter decides about each delivery of a node, in runs with in-order arrivals, in terms of the
    deliveries it saw and the publishes it completed. */
module FilterDecisions {
  import opened Wrappers
  import opened Timestamp
  import opened Model
  import opened Database
  import opened Deliveries
  import opened PositionFilter
  import opened Outbox
  import opened OutboxSafety
  import opened FilterHistory
  import opened OutboxOrder
  import opened OutboxTheorems

  // ------------------------------------------------------------------ the laws

  function Latitudes(ds: seq<Delivery>): seq<int> {
    seq(|ds|, i requires 0 <= i < |ds| => ds[i].position.latitude)
  }

  function Longitudes(ds: seq<Delivery>): seq<int> {
    seq(|ds|, i requires 0 <= i < |ds| => ds[i].position.longitude)
  }

  /** The position offered for the `i`-th delivery: its own, with the coordinates of median rank among the
      last three deliveries from the third one on. */
  predicate OfferedFor(fed: seq<Delivery>, i: nat, q: Position)
    requires i < |fed|
  {
    var p := fed[i].position;
    if i < 2 then q == p
    else
      && q == p.(latitude := q.latitude, longitude := q.longitude)
      && HasMedianRank(Latitudes(fed[i - 2..i + 1]), q.latitude)
      && HasMedianRank(Longitudes(fed[i - 2..i + 1]), q.longitude)
  }

  /** The `k`-th completed delivery is the latest one before the `i`-th that was published. */
  predicate LatestPublish(done: seq<Settlement>, i: nat, k: nat)
    requires i <= |done|
  {
    k < i && done[k].result.publish && forall l | k < l < i :: !done[l].result.publish
  }

  /** Less than a heartbeat after a publish in source time, and too close to it as far as that is measured:
      from the third delivery on. */
  predicate TooSoonAndClose(cfg: FilterConfig, last: Position, q: Position, i: nat) {
    && Sub(q.sourceTime, last.sourceTime) < cfg.heartbeat
    && (i < 2 || cfg.distance(last, q) < cfg.movementMeters)
  }

  /** The `i`-th delivery repeats, soon and close, what was last published. */
  predicate Repeats(cfg: FilterConfig, done: seq<Settlement>, i: nat)
    requires i < |done|
  {
    exists k | 0 <= k < i :: LatestPublish(done, i, k) && TooSoonAndClose(cfg, done[k].result.position, done[i].result.position, i)
  }

  // ------------------------------------------------------------------ the fold obeys them

  lemma FoldStep(cfg: FilterConfig, ds: seq<Delivery>)
    requires ds != []
    ensures var n := |ds| - 1;
            FoldState(cfg, ds).samples == LastThree(FoldState(cfg, ds[..n]).samples + [ds[n].position])
  {
    hide Decide, LastThree;
    var n := |ds| - 1;
    DecideFacts(cfg, FoldState(cfg, ds[..n]), ds[n].position);
  }

  lemma PositionsOfPart(ds: seq<Delivery>, a: nat, b: nat)
    requires a <= b <= |ds|
    ensures PositionsOf(ds[a..b]) == PositionsOf(ds)[a..b]
  {
  }

  lemma {:induction false} FoldWindow(cfg: FilterConfig, ds: seq<Delivery>)
    ensures FoldState(cfg, ds).samples == LastThree(PositionsOf(ds))
    decreases |ds|
  {
    hide FoldState, LastThree, PositionsOf;
    if ds == [] {
      NothingFolded(cfg);
    } else {
      var n := |ds| - 1;
      FoldWindow(cfg, ds[..n]);
      FoldStep(cfg, ds);
      WindowStep(PositionsOf(ds[..n]), ds[n].position);
      PositionsSnoc(ds);
    }
  }

  lemma NothingFolded(cfg: FilterConfig)
    ensures FoldState(cfg, []).samples == LastThree(PositionsOf([]))
  {
  }

  lemma PositionsSnoc(ds: seq<Delivery>)
    requires ds != []
    ensures PositionsOf(ds) == PositionsOf(ds[..|ds| - 1]) + [ds[|ds| - 1].position]
  {
  }

  lemma NeverFolded(cfg: FilterConfig, ds: seq<Delivery>)
    ensures FoldState(cfg, ds[..0]).lastPublished == None
  {
  }

  lemma {:induction false} FoldSilent(cfg: FilterConfig, ds: seq<Delivery>, n: nat)
    requires n <= |ds| && forall k | 0 <= k < n :: !Decision(cfg, ds, k).publish
    ensures FoldState(cfg, ds[..n]).lastPublished == None
    decreases n
  {
    hide Decision, Decide, FoldState;
    if n == 0 {
      NeverFolded(cfg, ds);
    } else {
      FoldPrefix(cfg, ds, n);
      LastDecision(cfg, ds, n);
      DecideFacts(cfg, FoldState(cfg, ds[..n - 1]), ds[n - 1].position);
      FoldSilent(cfg, ds, n - 1);
    }
  }

  /** Sliding over a list of samples keeps its newest three. */
  lemma SlideOver(ps: seq<Position>, i: nat, window: seq<Position>)
    requires i < |ps| && SlidesTo(LastThree(ps[..i]), ps[i], window)
    ensures window == if i < 2 then ps[..i + 1] else ps[i - 2..i + 1]
  {
    if i < 3 {
      assert window == ps[..i] + [ps[i]] == ps[..i + 1];
    } else {
      assert ps[..i][i - 3..] == ps[i - 3..i] && ps[i - 3..i][1..] == ps[i - 2..i];
      assert window == ps[i - 2..i] + [ps[i]] == ps[i - 2..i + 1];
    }
  }

  /** The deliveries behind the window of the `i`-th decision. */
  function Recent(fed: seq<Delivery>, i: nat): seq<Delivery>
    requires i < |fed|
  {
    if i < 2 then fed[..i + 1] else fed[i - 2..i + 1]
  }

  lemma WindowAt(cfg: FilterConfig, fed: seq<Delivery>, i: nat, window: seq<Position>)
    requires i < |fed| && SlidesTo(FoldState(cfg, fed[..i]).samples, fed[i].position, window)
    ensures window == PositionsOf(Recent(fed, i))
  {
    hide FoldState, LastThree, SlidesTo, PositionsOf;
    FoldWindow(cfg, fed[..i]);
    PositionsOfPart(fed, 0, i);
    assert fed[0..i] == fed[..i] && fed[0..i + 1] == fed[..i + 1];
    PositionOf(fed, i);
    SlideOver(PositionsOf(fed), i, window);
    PositionsOfPart(fed, if i < 2 then 0 else i - 2, i + 1);
  }

  lemma PositionOf(fed: seq<Delivery>, i: nat)
    requires i < |fed|
    ensures PositionsOf(fed)[i] == fed[i].position
  {
  }

  lemma WindowIsShort(cfg: FilterConfig, ds: seq<Delivery>)
    ensures |FoldState(cfg, ds).samples| <= 3
  {
    hide FoldState, PositionsOf;
    FoldWindow(cfg, ds);
  }

  lemma CoordinatesOf(ds: seq<Delivery>)
    ensures Coordinates(PositionsOf(ds), (w: Position) => w.latitude) == Latitudes(ds)
    ensures Coordinates(PositionsOf(ds), (w: Position) => w.longitude) == Longitudes(ds)
  {
  }

  /** Both laws for one decision of the fold, over the state in front of it. */
  lemma DecisionLaw(cfg: FilterConfig, fed: seq<Delivery>, i: nat)
    requires i < |fed|
    ensures var r := Decision(cfg, fed, i);
            && OfferedFor(fed, i, r.position)
            && (r.publish <==> MustPublish(cfg, FoldState(cfg, fed[..i]).lastPublished, r.position, i + 1))
  {
    hide Decide, FoldState, HasMedianRank, Coordinates, LastThree;
    var s, p := FoldState(cfg, fed[..i]), fed[i].position;
    WindowIsShort(cfg, fed[..i]);
    DecideLaw(cfg, s, p);
    var window := Decide(cfg, s, p).0.samples;
    WindowAt(cfg, fed, i, window);
    CoordinatesOf(Recent(fed, i));
    assert |window| == if i < 2 then i + 1 else 3;
  }

  /** The completed deliveries of a node are decided by the fold. */
  predicate DecidedByFold(cfg: FilterConfig, fed: seq<Delivery>, done: seq<Settlement>) {
    |done| <= |fed| && forall i | 0 <= i < |done| :: done[i] == Settlement(fed[i].id, Decision(cfg, fed, i))
  }

  lemma Remembered(cfg: FilterConfig, fed: seq<Delivery>, done: seq<Settlement>, i: nat, k: nat)
    requires DecidedByFold(cfg, fed, done) && i <= |done| && LatestPublish(done, i, k)
    ensures FoldState(cfg, fed[..i]).lastPublished == Some(done[k].result.position)
  {
    hide Decision, FoldState;
    FoldRemembers(cfg, fed, i, k);
  }

  lemma Forgotten(cfg: FilterConfig, fed: seq<Delivery>, done: seq<Settlement>, i: nat)
    requires DecidedByFold(cfg, fed, done) && i <= |done| && forall l | 0 <= l < i :: !done[l].result.publish
    ensures FoldState(cfg, fed[..i]).lastPublished == None
  {
    hide Decision, FoldState;
    FoldSilent(cfg, fed, i);
  }

  /** Either nothing was published before, or something was published last. */
  lemma {:induction false} FindLatest(done: seq<Settlement>, i: nat) returns (k: Option<nat>)
    requires i <= |done|
    ensures k.Some? ==> LatestPublish(done, i, k.value)
    ensures k.None? ==> forall l | 0 <= l < i :: !done[l].result.publish
    decreases i
  {
    if i == 0 {
      k := None;
    } else if done[i - 1].result.publish {
      k := Some(i - 1);
    } else {
      k := FindLatest(done, i - 1);
    }
  }

  lemma SuppressionLaw(cfg: FilterConfig, fed: seq<Delivery>, done: seq<Settlement>, i: nat)
    requires DecidedByFold(cfg, fed, done) && i < |done|
    ensures !done[i].result.publish <==> Repeats(cfg, done, i)
  {
    hide DecidedByFold, Decision, FoldState, OfferedFor, TooSoonAndClose;
    DecidedAt(cfg, fed, done, i);
    DecisionLaw(cfg, fed, i);
    var latest := FindLatest(done, i);
    if latest.Some? {
      var k := latest.value;
      Remembered(cfg, fed, done, i, k);
      PublishesUnlessSoonAndClose(cfg, done[k].result.position, done[i].result.position, i);
      assert LatestPublish(done, i, k);
    } else {
      Forgotten(cfg, fed, done, i);
    }
  }

  lemma PublishesUnlessSoonAndClose(cfg: FilterConfig, last: Position, q: Position, i: nat)
    ensures MustPublish(cfg, Some(last), q, i + 1) <==> !TooSoonAndClose(cfg, last, q, i)
  {
  }

  lemma DecidedAt(cfg: FilterConfig, fed: seq<Delivery>, done: seq<Settlement>, i: nat)
    requires DecidedByFold(cfg, fed, done) && i < |done|
    ensures i < |fed| && done[i] == Settlement(fed[i].id, Decision(cfg, fed, i))
  {
    hide Decision;
  }

  // ------------------------------------------------------------------ the theorem

  /** With in-order arrivals: the `i`-th completed delivery of a node is the `i`-th one fed; the position
      settled for it has the coordinates of median rank among the last three fed, from the third on, and is
      the delivery's own before; and it was suppressed if and only if there is an earlier completed publish
      of the node, the latest of these is less than a heartbeat older in source time, and, from the third
      delivery on, closer than the movement threshold. */
  lemma CompletedLaw(cfg: FilterConfig, db: Tables, steps: seq<Step>, node: uint32, i: nat)
    requires Valid(db) && InOrderRun(cfg, Start(db), steps)
    requires i < |Done(Run(cfg, Start(db), steps).log, node)|
    ensures var log := Run(cfg, Start(db), steps).log;
            var fed, done := Fed(log, node), Done(log, node);
            && i < |fed| && done[i].id == fed[i].id
            && OfferedFor(fed, i, done[i].result.position)
            && (!done[i].result.publish <==> Repeats(cfg, done, i))
  {
    hide Run, Valid, InOrderRun, Decision, Fed, Done, OfferedFor, Repeats, OffersOK, SameOffers, OnePrepared, AtRest, InFlight;
    RetryTransparency(cfg, db, steps, node);
    var log := Run(cfg, Start(db), steps).log;
    DecisionLaw(cfg, Fed(log, node), i);
    SuppressionLaw(cfg, Fed(log, node), Done(log, node), i);
  }

  predicate OfferedForSome(fed: seq<Delivery>, id: nat, q: Position) {
    exists i | 0 <= i < |fed| :: fed[i].id == id && OfferedFor(fed, i, q)
  }

  lemma OfferedForOne(fed: seq<Delivery>, i: nat, q: Position)
    requires i < |fed| && OfferedFor(fed, i, q)
    ensures OfferedForSome(fed, fed[i].id, q)
  {
    hide OfferedFor;
  }

  /** Every call of Publish offers, for one of the deliveries fed, the position that belongs to it. */
  lemma AttemptLaw(cfg: FilterConfig, db: Tables, steps: seq<Step>, node: uint32, k: nat)
    requires Valid(db) && InOrderRun(cfg, Start(db), steps)
    requires var log := Run(cfg, Start(db), steps).log;
             k < |log| && log[k].Attempted? && log[k].offered.sourceNode == node
    ensures var log := Run(cfg, Start(db), steps).log;
            var fed := Fed(log, node);
            OfferedForSome(fed, log[k].id, log[k].offered)
  {
    hide Run, Valid, InOrderRun, Decision, Fed, Done, OfferedFor, OfferedForSome, FoldOK, SameOffers, OnePrepared;
    RetryTransparency(cfg, db, steps, node);
    var log := Run(cfg, Start(db), steps).log;
    var fed := Fed(log, node);
    assert Offered(cfg, fed, log[k].id, log[k].offered);
    var i :| 0 <= i < |fed| && fed[i].id == log[k].id && Decision(cfg, fed, i) == Filtered(log[k].offered, true);
    DecisionLaw(cfg, fed, i);
    OfferedForOne(fed, i, log[k].offered);
  }
}
