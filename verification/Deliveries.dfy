/** `PendingDeliveries` (internal/store/store.go): which deliveries the worker is offered. */
module Deliveries {
  import opened Text
  import opened Timestamp
  import opened Model
  import opened Database
  import opened Query

  datatype Delivery = Delivery(id: nat, position: Position, attempts: nat)

  /** The join of the query: every delivery names a position. */
  predicate Linked(db: Tables) {
    forall i | 0 <= i < |db.deliveries| :: 1 <= db.deliveries[i].positionID <= |db.positions|
  }

  lemma ValidIsLinked(db: Tables)
    requires Valid(db)
    ensures Linked(db)
  {
    hide ValidPosition, IsTimestamp;
    forall i | 0 <= i < |db.deliveries| ensures 1 <= db.deliveries[i].positionID <= |db.positions| {
      assert ValidDelivery(db.deliveries[i], |db.positions|);
    }
  }

  function PositionFor(db: Tables, id: nat): PositionRow
    requires Linked(db) && IsDelivery(db, id)
  {
    db.positions[db.deliveries[id - 1].positionID - 1]
  }

  function NodeAt(db: Tables, id: nat): uint32
    requires Linked(db) && IsDelivery(db, id)
  {
    PositionFor(db, id).sourceNode
  }

  function TimeAt(db: Tables, id: nat): string
    requires Linked(db) && IsDelivery(db, id)
  {
    PositionFor(db, id).sourceTime
  }

  /** The key order of one node's deliveries: source time as text, then delivery id. */
  predicate Before(db: Tables, d: nat, e: nat)
    requires Linked(db) && IsDelivery(db, d) && IsDelivery(db, e)
  {
    TextLess(TimeAt(db, d), TimeAt(db, e)) || (TimeAt(db, d) == TimeAt(db, e) && d < e)
  }

  /** The NOT EXISTS clause: no pending delivery of the same node comes earlier. */
  predicate IsHead(db: Tables, d: nat)
    requires Linked(db)
  {
    IsPending(db, d)
    && forall e | 1 <= e <= |db.deliveries| ::
         IsPending(db, e) && NodeAt(db, e) == NodeAt(db, d) ==> !Before(db, e, d)
  }

  predicate IsDue(db: Tables, d: nat, now: string)
    requires IsDelivery(db, d)
  {
    !TextLess(now, db.deliveries[d - 1].nextAttemptAt)
  }

  predicate IsEligible(db: Tables, d: nat, now: string)
    requires Linked(db)
  {
    IsHead(db, d) && IsDue(db, d, now)
  }

  function Times(db: Tables): (times: seq<string>)
    requires Linked(db)
    ensures |times| == |db.deliveries|
  {
    seq(|db.deliveries|, i requires 0 <= i < |db.deliveries| => TimeAt(db, i + 1))
  }

  function Keep(db: Tables, now: string): (keep: seq<bool>)
    requires Linked(db)
    ensures |keep| == |db.deliveries|
  {
    seq(|db.deliveries|, i requires 0 <= i < |db.deliveries| => IsEligible(db, i + 1, now))
  }

  /** The rows of the query, numbered from 0 and cut at the limit. */
  function PendingRows(db: Tables, now: string, limit: nat): (rows: seq<nat>)
    requires Linked(db)
    ensures Rows(Times(db), rows)
  {
    var rows := OrderedBy(Times(db), Keep(db, now));
    if |rows| <= limit then rows else rows[..limit]
  }

  lemma EligibleInOrder(db: Tables, now: string)
    requires Linked(db)
    ensures var all := OrderedBy(Times(db), Keep(db, now));
            && (forall k: nat :: k in all <==> k < |db.deliveries| && IsEligible(db, k + 1, now))
            && (forall a, b | 0 <= a < b < |all| :: Before(db, all[a] + 1, all[b] + 1))
  {
    hide TextLess, IsDue, IsHead, Select;
    var times, all := Times(db), OrderedBy(Times(db), Keep(db, now));
    SelectExact(times, Keep(db, now), |times|);
    forall a, b | 0 <= a < b < |all| ensures Before(db, all[a] + 1, all[b] + 1) {
      assert Precedes(times, all[a], all[b]);
    }
  }

  /** Each snapshot holds at most one delivery of a node, its least pending one, in key order. */
  lemma SnapshotHeads(db: Tables, now: string, limit: nat)
    requires Linked(db)
    ensures var rows := PendingRows(db, now, limit);
            && |rows| <= limit
            && (forall a | 0 <= a < |rows| :: IsEligible(db, rows[a] + 1, now))
            && (forall a, b | 0 <= a < b < |rows| :: Before(db, rows[a] + 1, rows[b] + 1))
            && (forall a, b | 0 <= a < b < |rows| :: NodeAt(db, rows[a] + 1) != NodeAt(db, rows[b] + 1))
  {
    hide Before, IsDue, IsHead, OrderedBy, Times, Keep, NodeAt;
    var all, rows := OrderedBy(Times(db), Keep(db, now)), PendingRows(db, now, limit);
    EligibleInOrder(db, now);
    assert forall i | 0 <= i < |rows| :: all[i] == rows[i] && all[i] in all;
    forall a, b | 0 <= a < b < |rows| ensures NodeAt(db, rows[a] + 1) != NodeAt(db, rows[b] + 1) {
      if NodeAt(db, rows[a] + 1) == NodeAt(db, rows[b] + 1) {
        HeadUnique(db, rows[a] + 1, rows[b] + 1);
        BeforeTotal(db, rows[a] + 1, rows[b] + 1);
      }
    }
  }

  /** An eligible delivery is missing from a snapshot only when the limit cut it off after earlier ones. */
  lemma SnapshotComplete(db: Tables, now: string, limit: nat, k: nat)
    requires Linked(db)
    requires k < |db.deliveries| && IsEligible(db, k + 1, now) && k !in PendingRows(db, now, limit)
    ensures var rows := PendingRows(db, now, limit);
            |rows| == limit && forall a | 0 <= a < |rows| :: Before(db, rows[a] + 1, k + 1)
  {
    hide Before, IsEligible, OrderedBy, Times, Keep;
    var all, rows := OrderedBy(Times(db), Keep(db, now)), PendingRows(db, now, limit);
    EligibleInOrder(db, now);
    assert k in all;
    var i :| 0 <= i < |all| && all[i] == k;
  }

  lemma BeforeTotal(db: Tables, d: nat, e: nat)
    requires Linked(db) && IsDelivery(db, d) && IsDelivery(db, e)
    ensures Before(db, d, e) || d == e || Before(db, e, d)
    ensures !(Before(db, d, e) && Before(db, e, d)) && !Before(db, d, d)
  {
    PrecedesTotal(Times(db), d - 1, e - 1);
    PrecedesTotal(Times(db), d - 1, d - 1);
  }

  lemma BeforeTransitive(db: Tables, d: nat, e: nat, f: nat)
    requires Linked(db) && IsDelivery(db, d) && IsDelivery(db, e) && IsDelivery(db, f)
    requires Before(db, d, e) && Before(db, e, f)
    ensures Before(db, d, f)
  {
    PrecedesTransitive(Times(db), d - 1, e - 1, f - 1);
  }

  lemma HeadIsPending(db: Tables, d: nat)
    requires Linked(db) && IsHead(db, d)
    ensures IsPending(db, d)
  {
  }

  lemma HeadUnique(db: Tables, d: nat, e: nat)
    requires Linked(db) && IsHead(db, d) && IsHead(db, e) && NodeAt(db, d) == NodeAt(db, e)
    ensures d == e
  {
    BeforeTotal(db, d, e);
  }

  /** Every pending delivery waits behind a head of its node. */
  lemma HeadExists(db: Tables, d: nat) returns (h: nat)
    requires Linked(db) && IsPending(db, d)
    ensures IsHead(db, h) && NodeAt(db, h) == NodeAt(db, d)
    ensures h == d || Before(db, h, d)
  {
    h := LeastUpTo(db, d, |db.deliveries|);
  }

  lemma {:induction false} LeastUpTo(db: Tables, d: nat, n: nat) returns (h: nat)
    requires Linked(db) && IsPending(db, d) && n <= |db.deliveries|
    ensures IsPending(db, h) && NodeAt(db, h) == NodeAt(db, d)
    ensures h == d || Before(db, h, d)
    ensures forall e | 1 <= e <= n :: IsPending(db, e) && NodeAt(db, e) == NodeAt(db, d) ==> !Before(db, e, h)
  {
    hide TextLess;
    if n == 0 {
      h := d;
    } else {
      h := LeastUpTo(db, d, n - 1);
      if IsPending(db, n) && NodeAt(db, n) == NodeAt(db, d) && Before(db, n, h) {
        forall e | 1 <= e <= n && IsPending(db, e) && NodeAt(db, e) == NodeAt(db, d)
          ensures !Before(db, e, n)
        {
          BeforeTotal(db, n, n);
          if Before(db, e, n) {
            BeforeTransitive(db, e, n, h);
          }
        }
        if h != d {
          BeforeTransitive(db, n, h, d);
        }
        h := n;
      }
    }
  }

  // ------------------------------------------------------------------ the delivery the worker receives

  function ReadDelivery(db: Tables, id: nat): Delivery
    requires Linked(db) && IsDelivery(db, id)
  {
    var row := db.deliveries[id - 1];
    Delivery(id, ReadPosition(db.positions[row.positionID - 1], row.positionID), row.attempts)
  }

  function PendingDeliveries(db: Tables, now: string, limit: nat): (deliveries: seq<Delivery>)
    requires Linked(db)
    ensures |deliveries| == |PendingRows(db, now, limit)|
  {
    var rows := PendingRows(db, now, limit);
    seq(|rows|, i requires 0 <= i < |rows| => ReadDelivery(db, rows[i] + 1))
  }

  /** The query in terms of the rows: the delivery is pending and due, and no pending one of its node has an
      earlier source time, or the same and a smaller id. */
  predicate CanBeOffered(db: Tables, id: nat, now: string)
    requires Linked(db)
  {
    && IsDelivery(db, id) && db.deliveries[id - 1].state == Pending
    && !TextLess(now, db.deliveries[id - 1].nextAttemptAt)
    && forall e | 1 <= e <= |db.deliveries| && db.deliveries[e - 1].state == Pending
                  && PositionFor(db, e).sourceNode == PositionFor(db, id).sourceNode ::
         && !TextLess(PositionFor(db, e).sourceTime, PositionFor(db, id).sourceTime)
         && (PositionFor(db, e).sourceTime == PositionFor(db, id).sourceTime ==> id <= e)
  }

  /** The worker's view: each delivery with its row's attempts and every column of its position, no node
      twice, in the order of source time and id; one that could be offered is missing only when the limit
      was used up by earlier ones. */
  ghost predicate Offers(db: Tables, now: string, limit: nat, ds: seq<Delivery>)
    requires Linked(db)
  {
    && |ds| <= limit
    && (forall i | 0 <= i < |ds| ::
          && CanBeOffered(db, ds[i].id, now)
          && ds[i].attempts == db.deliveries[ds[i].id - 1].attempts
          && Shows(ds[i].position, PositionFor(db, ds[i].id), db.deliveries[ds[i].id - 1].positionID))
    && (forall i, j | 0 <= i < j < |ds| ::
          ds[i].position.sourceNode != ds[j].position.sourceNode && Before(db, ds[i].id, ds[j].id))
    && (forall id: nat | IsDelivery(db, id) && CanBeOffered(db, id, now) && (forall i | 0 <= i < |ds| :: ds[i].id != id) ::
          |ds| == limit && forall i | 0 <= i < |ds| :: Before(db, ds[i].id, id))
  }

  lemma EligibleIsOffered(db: Tables, id: nat, now: string)
    requires Linked(db)
    ensures CanBeOffered(db, id, now) <==> IsDelivery(db, id) && IsEligible(db, id, now)
  {
    hide TextLess;
    if CanBeOffered(db, id, now) {
      forall e | 1 <= e <= |db.deliveries| && IsPending(db, e) && NodeAt(db, e) == NodeAt(db, id)
        ensures !Before(db, e, id)
      {
        assert db.deliveries[e - 1].state == Pending && PositionFor(db, e).sourceNode == PositionFor(db, id).sourceNode;
      }
    }
    if IsDelivery(db, id) && IsEligible(db, id, now) {
      forall e | 1 <= e <= |db.deliveries| && db.deliveries[e - 1].state == Pending
                 && PositionFor(db, e).sourceNode == PositionFor(db, id).sourceNode
        ensures !TextLess(PositionFor(db, e).sourceTime, PositionFor(db, id).sourceTime)
        ensures PositionFor(db, e).sourceTime == PositionFor(db, id).sourceTime ==> id <= e
      {
        assert IsPending(db, e) && NodeAt(db, e) == NodeAt(db, id);
        assert !Before(db, e, id);
      }
    }
  }

  lemma ReadDeliveryShows(db: Tables, id: nat)
    requires Linked(db) && IsDelivery(db, id) && Readable(PositionFor(db, id))
    ensures var d, row := ReadDelivery(db, id), db.deliveries[id - 1];
            && d.id == id && d.attempts == row.attempts && Shows(d.position, PositionFor(db, id), row.positionID)
            && d.position.sourceNode == NodeAt(db, id)
  {
    hide ReadPosition, Shows, Readable;
    ReadShows(PositionFor(db, id), db.deliveries[id - 1].positionID);
    ShowsNode(ReadPosition(PositionFor(db, id), db.deliveries[id - 1].positionID), PositionFor(db, id),
              db.deliveries[id - 1].positionID);
  }

  lemma ShowsNode(p: Position, row: PositionRow, id: nat)
    requires Shows(p, row, id)
    ensures p.sourceNode == row.sourceNode
  {
    hide ParseTime;
  }

  /** What the query returns is the worker's view, as long as its times can be read. */
  lemma PendingIsOffers(db: Tables, now: string, limit: nat)
    requires Linked(db)
    requires forall a | 0 <= a < |PendingRows(db, now, limit)| ::
               Readable(PositionFor(db, PendingRows(db, now, limit)[a] + 1))
    ensures Offers(db, now, limit, PendingDeliveries(db, now, limit))
  {
    hide PendingRows, ReadDelivery, Shows, Readable, Before, IsEligible, CanBeOffered, NodeAt, PendingDeliveries;
    var rows, ds := PendingRows(db, now, limit), PendingDeliveries(db, now, limit);
    SnapshotHeads(db, now, limit);
    forall i | 0 <= i < |ds|
      ensures ds[i].id == rows[i] + 1 && CanBeOffered(db, ds[i].id, now)
      ensures ds[i].attempts == db.deliveries[ds[i].id - 1].attempts
      ensures Shows(ds[i].position, PositionFor(db, ds[i].id), db.deliveries[ds[i].id - 1].positionID)
      ensures ds[i].position.sourceNode == NodeAt(db, rows[i] + 1)
    {
      PendingItem(db, now, limit, i);
      EligibleIsOffered(db, rows[i] + 1, now);
      ReadDeliveryShows(db, rows[i] + 1);
    }
    forall id: nat | IsDelivery(db, id) && CanBeOffered(db, id, now) && (forall i | 0 <= i < |ds| :: ds[i].id != id)
      ensures |ds| == limit && forall i | 0 <= i < |ds| :: Before(db, ds[i].id, id)
    {
      EligibleIsOffered(db, id, now);
      assert forall i | 0 <= i < |rows| :: ds[i].id == rows[i] + 1;
      SnapshotComplete(db, now, limit, id - 1);
    }
  }

  lemma PendingItem(db: Tables, now: string, limit: nat, i: nat)
    requires Linked(db) && i < |PendingRows(db, now, limit)|
    ensures PendingDeliveries(db, now, limit)[i] == ReadDelivery(db, PendingRows(db, now, limit)[i] + 1)
  {
    hide PendingRows, ReadDelivery;
  }
}
