/** The position filter of internal/caltopo/worker.go: a three-sample median, a movement
    threshold, a heartbeat, and the memo that keeps a retry from feeding a sample twice. */
module PositionFilter {
  import opened Wrappers
  import opened Timestamp
  import opened Model
  import opened Deliveries

  /** The distance function is a parameter: only its comparison with the threshold matters. */
  datatype FilterConfig = FilterConfig(
    movementMeters: real,
    heartbeat: int,
    distance: (Position, Position) -> real)

  const MAX_DURATION := 0x7FFF_FFFF_FFFF_FFFF
  const MIN_DURATION := -0x8000_0000_0000_0000

  /** `time.Time.Sub`, which saturates at the range of a 64-bit duration. */
  function Sub(a: Instant, b: Instant): int {
    if a - b > MAX_DURATION then MAX_DURATION
    else if a - b < MIN_DURATION then MIN_DURATION
    else a - b
  }

  // ------------------------------------------------------------------ the median

  function Insert(sorted: seq<int>, x: int): seq<int> {
    if sorted == [] || x <= sorted[0] then [x] + sorted else [sorted[0]] + Insert(sorted[1..], x)
  }

  /** The library sort. */
  function Sorted(values: seq<int>): (r: seq<int>)
    ensures |r| == |values|
  {
    if values == [] then [] else InsertLength(Sorted(values[1..]), values[0]); Insert(Sorted(values[1..]), values[0])
  }

  lemma {:induction false} InsertLength(sorted: seq<int>, x: int)
    ensures |Insert(sorted, x)| == |sorted| + 1
  {
    if sorted != [] && x > sorted[0] {
      InsertLength(sorted[1..], x);
    }
  }

  function Median(values: seq<int>): int
    requires values != []
  {
    Sorted(values)[|values| / 2]
  }

  function CountBelow(values: seq<int>, x: int): nat {
    if values == [] then 0 else (if values[0] < x then 1 else 0) + CountBelow(values[1..], x)
  }

  /** The rank that defines a median: at most half of the values are smaller, more than half are not larger. */
  predicate HasMedianRank(values: seq<int>, m: int) {
    CountBelow(values, m) <= |values| / 2 < CountBelow(values, m + 1)
  }

  predicate Ascending(s: seq<int>) {
    forall i, j | 0 <= i < j < |s| :: s[i] <= s[j]
  }

  lemma {:induction false} InsertKeeps(sorted: seq<int>, x: int)
    requires Ascending(sorted)
    ensures Ascending(Insert(sorted, x))
    ensures forall y :: CountBelow(Insert(sorted, x), y) == (if x < y then 1 else 0) + CountBelow(sorted, y)
    ensures forall y :: y in Insert(sorted, x) <==> y == x || y in sorted
  {
    if sorted != [] && x > sorted[0] {
      InsertKeeps(sorted[1..], x);
      var r := Insert(sorted[1..], x);
      assert Insert(sorted, x)[1..] == r;
      forall j | 0 <= j < |r| ensures sorted[0] <= r[j] {
        assert r[j] in r;
      }
    } else {
      assert ([x] + sorted)[1..] == sorted;
    }
  }

  lemma {:induction false} SortedKeeps(values: seq<int>)
    ensures Ascending(Sorted(values))
    ensures forall y :: CountBelow(Sorted(values), y) == CountBelow(values, y)
  {
    if values != [] {
      SortedKeeps(values[1..]);
      InsertKeeps(Sorted(values[1..]), values[0]);
    }
  }

  /** In ascending order the values below `x` are exactly an initial segment. */
  lemma {:induction false} CountAscending(s: seq<int>, x: int, k: nat)
    requires Ascending(s) && k < |s|
    ensures s[k] >= x ==> CountBelow(s, x) <= k
    ensures s[k] < x ==> k < CountBelow(s, x)
  {
    assert Ascending(s[1..]);
    if k > 0 {
      CountAscending(s[1..], x, k - 1);
      assert s[0] <= s[k];
    } else if s[0] >= x {
      NoneBelow(s, x);
    }
  }

  lemma {:induction false} NoneBelow(s: seq<int>, x: int)
    requires forall i | 0 <= i < |s| :: s[i] >= x
    ensures CountBelow(s, x) == 0
  {
    if s != [] {
      NoneBelow(s[1..], x);
    }
  }

  lemma {:induction false} CountMonotone(values: seq<int>, x: int, y: int)
    requires x <= y
    ensures CountBelow(values, x) <= CountBelow(values, y)
  {
    if values != [] {
      CountMonotone(values[1..], x, y);
    }
  }

  /** `medianCoordinate` returns the one value of median rank. */
  lemma MedianRank(values: seq<int>, m: int)
    requires values != []
    ensures HasMedianRank(values, m) <==> m == Median(values)
  {
    var s, k, median := Sorted(values), |values| / 2, Median(values);
    SortedKeeps(values);
    CountAscending(s, median, k);
    CountAscending(s, median + 1, k);
    if m < median {
      CountMonotone(values, m + 1, median);
    } else if m > median {
      CountMonotone(values, median + 1, m);
    }
  }

  lemma {:induction false} CountDependsOnMultiset(a: seq<int>, b: seq<int>, x: int)
    requires multiset(a) == multiset(b)
    ensures CountBelow(a, x) == CountBelow(b, x)
    decreases |a|
  {
    hide CountBelow;
    if a == [] {
      assert |multiset(b)| == |b| == 0;
    } else {
      var i := IndexOf(b, a[0]) by {
        assert a[0] in multiset(a);
      }
      TakenOut(a, 0, x);
      TakenOut(b, i, x);
      CountDependsOnMultiset(a[..0] + a[1..], b[..i] + b[i + 1..], x);
    }
  }

  lemma IndexOf(s: seq<int>, y: int) returns (i: nat)
    requires y in multiset(s)
    ensures i < |s| && s[i] == y
  {
    i :| 0 <= i < |s| && s[i] == y;
  }

  lemma TakenOut(s: seq<int>, i: nat, x: int)
    requires i < |s|
    ensures multiset(s[..i] + s[i + 1..]) == multiset(s) - multiset{s[i]}
    ensures CountBelow(s, x) == (if s[i] < x then 1 else 0) + CountBelow(s[..i] + s[i + 1..], x)
  {
    hide CountBelow;
    var front, back := s[..i], s[i + 1..];
    assert s == front + ([s[i]] + back);
    CountAppend(front, [s[i]] + back, x);
    CountAppend([s[i]], back, x);
    CountAppend(front, back, x);
    CountOne(s[i], x);
  }

  lemma CountOne(y: int, x: int)
    ensures CountBelow([y], x) == if y < x then 1 else 0
  {
  }

  lemma {:induction false} CountAppend(a: seq<int>, b: seq<int>, x: int)
    ensures CountBelow(a + b, x) == CountBelow(a, x) + CountBelow(b, x)
  {
    if a == [] {
      assert a + b == b;
    } else {
      assert (a + b)[1..] == a[1..] + b;
      CountAppend(a[1..], b, x);
    }
  }

  /** The median does not depend on the order in which the samples arrived. */
  lemma MedianIgnoresOrder(a: seq<int>, b: seq<int>)
    requires a != [] && multiset(a) == multiset(b)
    ensures b != [] && Median(a) == Median(b)
  {
    assert |multiset(a)| == |a| && |multiset(b)| == |b|;
    var m := Median(a);
    MedianRank(a, m);
    CountDependsOnMultiset(a, b, m);
    CountDependsOnMultiset(a, b, m + 1);
    MedianRank(b, m);
  }

  function Coordinates(positions: seq<Position>, coordinate: Position -> int): (r: seq<int>)
    ensures |r| == |positions|
  {
    seq(|positions|, i requires 0 <= i < |positions| => coordinate(positions[i]))
  }

  /** `medianCoordinate` copies one coordinate of every sample, sorts the copy and takes its middle. */
  method MedianCoordinate(positions: seq<Position>, coordinate: Position -> int) returns (median: int)
    requires positions != []
    ensures median == Median(Coordinates(positions, coordinate))
  {
    var values := new int[|positions|];
    for index := 0 to |positions|
      invariant values[..index] == Coordinates(positions, coordinate)[..index]
    {
      values[index] := coordinate(positions[index]);
    }
    assert values[..] == Coordinates(positions, coordinate);
    var sorted := Sorted(values[..]);
    return sorted[|sorted| / 2];
  }

  // ------------------------------------------------------------------ one node as a pure fold

  datatype NodeState = NodeState(samples: seq<Position>, lastPublished: Option<Position>)

  const FRESH_NODE := NodeState([], None)

  datatype Filtered = Filtered(position: Position, publish: bool)

  function LastThree(samples: seq<Position>): seq<Position> {
    if |samples| <= 3 then samples else samples[|samples| - 3..]
  }

  /** The position offered to the publisher: the newest sample, at the median of three when there are three. */
  function Smoothed(samples: seq<Position>, p: Position): Position {
    if |samples| == 3 then
      p.(latitude := Median(Coordinates(samples, (q: Position) => q.latitude)),
         longitude := Median(Coordinates(samples, (q: Position) => q.longitude)))
    else p
  }

  /** Far enough in time or, once there are three samples, in space from the last published position. */
  predicate Separated(cfg: FilterConfig, last: Position, p: Position, sampled: bool) {
    Sub(p.sourceTime, last.sourceTime) >= cfg.heartbeat || (sampled && cfg.distance(last, p) >= cfg.movementMeters)
  }

  function Decide(cfg: FilterConfig, s: NodeState, p: Position): (NodeState, Filtered) {
    var samples := LastThree(s.samples + [p]);
    var q := Smoothed(samples, p);
    (NodeState(samples, s.lastPublished),
     Filtered(q, s.lastPublished.None? || Separated(cfg, s.lastPublished.value, q, |samples| == 3)))
  }

  /** The window after a sample: the newest three. */
  predicate SlidesTo(samples: seq<Position>, p: Position, samples': seq<Position>) {
    samples' == if |samples| < 3 then samples + [p] else samples[|samples| - 2..] + [p]
  }

  /** The offered position is the sample, moved to the middle of the window once that is full. */
  predicate OfferedFrom(window: seq<Position>, p: Position, q: Position) {
    && q == p.(latitude := q.latitude, longitude := q.longitude)
    && if |window| < 3 then q == p
       else && HasMedianRank(Coordinates(window, (w: Position) => w.latitude), q.latitude)
            && HasMedianRank(Coordinates(window, (w: Position) => w.longitude), q.longitude)
  }

  /** A report is published if its node has none yet, or after a heartbeat, or far enough away once three
      samples say so. */
  predicate MustPublish(cfg: FilterConfig, last: Option<Position>, q: Position, samples: nat) {
    last.None?
    || Sub(q.sourceTime, last.value.sourceTime) >= cfg.heartbeat
    || (samples >= 3 && cfg.distance(last.value, q) >= cfg.movementMeters)
  }

  /** Comparing through saturated differences is comparing times. */
  lemma SubCompares(a: Instant, b: Instant, duration: int)
    requires MIN_DURATION < duration <= MAX_DURATION
    ensures Sub(a, b) >= duration <==> a - b >= duration
  {
  }

  lemma DecideLaw(cfg: FilterConfig, s: NodeState, p: Position)
    requires |s.samples| <= 3
    ensures var (s', r) := Decide(cfg, s, p);
            && SlidesTo(s.samples, p, s'.samples) && s'.lastPublished == s.lastPublished && 1 <= |s'.samples| <= 3
            && OfferedFrom(s'.samples, p, r.position)
            && (r.publish <==> MustPublish(cfg, s.lastPublished, r.position, |s'.samples|))
  {
    hide HasMedianRank, Median, Coordinates;
    var window := LastThree(s.samples + [p]);
    if |window| == 3 {
      var q := Smoothed(window, p);
      MedianRank(Coordinates(window, (w: Position) => w.latitude), q.latitude);
      MedianRank(Coordinates(window, (w: Position) => w.longitude), q.longitude);
    }
  }

  function Settle(s: NodeState, f: Filtered): NodeState {
    if f.publish then s.(lastPublished := Some(f.position)) else s
  }

  // ------------------------------------------------------------------ the filter's two maps

  datatype Filter = Filter(nodes: map<uint32, NodeState>, prepared: map<nat, Filtered>)

  const EMPTY_FILTER := Filter(map[], map[])

  function StateOf(f: Filter, node: uint32): NodeState {
    if node in f.nodes then f.nodes[node] else FRESH_NODE
  }

  function Prepare(cfg: FilterConfig, f: Filter, d: Delivery): (Filter, Filtered) {
    if d.id in f.prepared then (f, f.prepared[d.id])
    else
      var node := d.position.sourceNode;
      var (s, r) := Decide(cfg, StateOf(f, node), d.position);
      (Filter(f.nodes[node := s], f.prepared[d.id := r]), r)
  }

  /** The lookups `complete` makes without checking. */
  predicate CanComplete(f: Filter, id: nat) {
    id in f.prepared && f.prepared[id].position.sourceNode in f.nodes
  }

  function Complete(f: Filter, id: nat, published: bool): Filter
    requires CanComplete(f, id)
  {
    var r := f.prepared[id];
    var node := r.position.sourceNode;
    Filter(if published then f.nodes[node := f.nodes[node].(lastPublished := Some(r.position))] else f.nodes,
           f.prepared - {id})
  }
}
