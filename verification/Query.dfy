/** The `ORDER BY time, id` selections of internal/store/store.go over rows numbered from 0. */
module Query {
  import opened Text

  /** Row order: by text, then by row number. */
  predicate Precedes(times: seq<string>, i: nat, j: nat)
    requires i < |times| && j < |times|
  {
    TextLess(times[i], times[j]) || (times[i] == times[j] && i < j)
  }

  lemma PrecedesTotal(times: seq<string>, i: nat, j: nat)
    requires i < |times| && j < |times|
    ensures Precedes(times, i, j) || i == j || Precedes(times, j, i)
    ensures !(Precedes(times, i, j) && Precedes(times, j, i)) && !Precedes(times, i, i)
  {
    TextLessTotal(times[i], times[j]);
    TextLessTotal(times[i], times[i]);
  }

  lemma PrecedesTransitive(times: seq<string>, i: nat, j: nat, k: nat)
    requires i < |times| && j < |times| && k < |times|
    requires Precedes(times, i, j) && Precedes(times, j, k)
    ensures Precedes(times, i, k)
  {
    if TextLess(times[i], times[j]) && TextLess(times[j], times[k]) {
      TextLessTransitive(times[i], times[j], times[k]);
    }
  }

  predicate Rows(times: seq<string>, rows: seq<nat>) {
    forall a | 0 <= a < |rows| :: rows[a] < |times|
  }

  /** Strictly ascending row order. */
  predicate Ordered(times: seq<string>, rows: seq<nat>)
    requires Rows(times, rows)
  {
    forall a, b | 0 <= a < b < |rows| :: Precedes(times, rows[a], rows[b])
  }

  function Insert(times: seq<string>, rows: seq<nat>, i: nat): (r: seq<nat>)
    requires Rows(times, rows) && i < |times|
    ensures Rows(times, r)
  {
    if rows == [] || Precedes(times, i, rows[0]) then [i] + rows
    else [rows[0]] + Insert(times, rows[1..], i)
  }

  lemma {:induction false} InsertOrdered(times: seq<string>, rows: seq<nat>, i: nat)
    requires Rows(times, rows) && i < |times|
    requires Ordered(times, rows) && i !in rows
    ensures Ordered(times, Insert(times, rows, i))
    ensures forall k :: k in Insert(times, rows, i) <==> k == i || k in rows
  {
    if rows != [] {
      PrecedesTotal(times, i, rows[0]);
      if Precedes(times, i, rows[0]) {
        forall b | 1 <= b < |rows| ensures Precedes(times, i, rows[b]) {
          PrecedesTransitive(times, i, rows[0], rows[b]);
        }
      } else {
        InsertOrdered(times, rows[1..], i);
        var r := Insert(times, rows[1..], i);
        forall b | 0 <= b < |r| ensures Precedes(times, rows[0], r[b]) {
          assert r[b] in r;
        }
        assert Insert(times, rows, i) == [rows[0]] + r;
      }
    }
  }

  /** The first `n` rows that satisfy a WHERE clause, in row order. */
  function Select(times: seq<string>, keep: seq<bool>, n: nat): (rows: seq<nat>)
    requires |keep| == |times| && n <= |times|
    ensures Rows(times, rows)
  {
    if n == 0 then []
    else if keep[n - 1] then Insert(times, Select(times, keep, n - 1), n - 1)
    else Select(times, keep, n - 1)
  }

  lemma {:induction false} SelectExact(times: seq<string>, keep: seq<bool>, n: nat)
    requires |keep| == |times| && n <= |times|
    ensures Ordered(times, Select(times, keep, n))
    ensures forall k: nat :: k in Select(times, keep, n) <==> k < n && keep[k]
  {
    if n > 0 {
      SelectExact(times, keep, n - 1);
      if keep[n - 1] {
        InsertOrdered(times, Select(times, keep, n - 1), n - 1);
      }
    }
  }

  /** `SELECT ... WHERE keep ORDER BY time, id`. */
  function OrderedBy(times: seq<string>, keep: seq<bool>): (rows: seq<nat>)
    requires |keep| == |times|
    ensures Rows(times, rows)
  {
    Select(times, keep, |times|)
  }

  /** Which rows a query returns and in which order leaves nothing open. */
  lemma {:induction false} OrderUnique(times: seq<string>, a: seq<nat>, b: seq<nat>)
    requires Rows(times, a) && Rows(times, b) && Ordered(times, a) && Ordered(times, b)
    requires forall k :: k in a <==> k in b
    ensures a == b
    decreases |a|
  {
    assert a != [] ==> a[0] in b;
    assert b != [] ==> b[0] in a;
    if a != [] {
      var i :| 0 <= i < |b| && b[i] == a[0];
      var j :| 0 <= j < |a| && a[j] == b[0];
      PrecedesTotal(times, a[0], b[0]);
      assert a[0] == b[0];
      forall k ensures k in a[1..] <==> k in b[1..] {
        PrecedesTotal(times, a[0], a[0]);
        assert k in a <==> k == a[0] || k in a[1..];
        assert k in b <==> k == b[0] || k in b[1..];
      }
      OrderUnique(times, a[1..], b[1..]);
      assert a == [a[0]] + a[1..] && b == [b[0]] + b[1..];
    }
  }
}
