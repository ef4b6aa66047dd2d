/** The balance chart, reconstructed backwards from the current balance and the entries loaded so far. */
module Sparkline {
  import opened Schema
  import opened Ledger
  import opened History

  /** A point of the chart. The opening point has no entry. */
  datatype Point = Point(time: int, balance: int, entry: Option<Entry>)

  /** The chart of newest-first entries: an opening point, then one point per entry in chronological order,
      each entry moving the balance by its own delta, ending at the current balance. */
  ghost predicate IsSeries(entries: seq<Entry>, currentBalance: int, points: seq<Point>) {
    if entries == [] then points == []
    else
      && |points| == |entries| + 1
      && points[0].time == entries[|entries| - 1].createdAt && points[0].entry.None?
      && points[|entries|].balance == currentBalance
      && forall i :: 0 <= i < |entries| ==> Follows(points[i], entries[|entries| - 1 - i], points[i + 1])
  }

  predicate Follows(before: Point, e: Entry, after: Point) {
    after.time == e.createdAt && after.entry == Some(e) && after.balance - before.balance == e.delta
  }

  /** The points pushed so far, newest first, and the balance before the last entry taken. */
  ghost predicate Pushed(entries: seq<Entry>, n: nat, currentBalance: int, points: seq<Point>, running: int)
    requires n <= |entries|
  {
    && |points| == n
    && (if n == 0 then running == currentBalance else points[0].balance == currentBalance && PushedLast(entries[n - 1], points[n - 1], running))
    && forall k :: 0 <= k < n - 1 ==> PushedLast(entries[k], points[k], points[k + 1].balance)
  }

  /** The entry's point, given the balance the entry started from. */
  predicate PushedLast(e: Entry, p: Point, before: int) {
    p.time == e.createdAt && p.entry == Some(e) && p.balance - before == e.delta
  }

  lemma PushOne(entries: seq<Entry>, n: nat, currentBalance: int, points: seq<Point>, running: int)
    requires n < |entries| && Pushed(entries, n, currentBalance, points, running)
    ensures var e := entries[n];
      Pushed(entries, n + 1, currentBalance, points + [Point(e.createdAt, running, Some(e))], running - e.delta)
  {
    var next := points + [Point(entries[n].createdAt, running, Some(entries[n]))];
    forall k | 0 <= k < n ensures PushedLast(entries[k], next[k], next[k + 1].balance) {
    }
  }

  lemma TurnRound(entries: seq<Entry>, currentBalance: int, points: seq<Point>, running: int)
    requires entries != [] && Pushed(entries, |entries|, currentBalance, points, running)
    ensures IsSeries(entries, currentBalance, Backwards(points + [Point(entries[|entries| - 1].createdAt, running, None)]))
  {
    var all := points + [Point(entries[|entries| - 1].createdAt, running, None)];
    var turned, n := Backwards(all), |entries|;
    forall i | 0 <= i < n ensures Follows(turned[i], entries[n - 1 - i], turned[i + 1]) {
      assert turned[i] == all[n - i] && turned[i + 1] == all[n - 1 - i];
      assert PushedLast(entries[n - 1 - i], all[n - 1 - i], all[n - i].balance);
    }
  }

  /** One pass from the newest entry back, then the points are turned round. */
  method BuildSeries(entries: seq<Entry>, currentBalance: int) returns (points: seq<Point>)
    ensures IsSeries(entries, currentBalance, points)
  {
    hide Pushed, Backwards;
    if entries == [] {
      return [];
    }
    points := [];
    var running := currentBalance;
    NothingPushed(entries, currentBalance);
    for i := 0 to |entries|
      invariant Pushed(entries, i, currentBalance, points, running)
    {
      PushOne(entries, i, currentBalance, points, running);
      points := points + [Point(entries[i].createdAt, running, Some(entries[i]))];
      running := running - entries[i].delta;
    }
    TurnRound(entries, currentBalance, points, running);
    points := points + [Point(entries[|entries| - 1].createdAt, running, None)];
    points := Backwards(points);
  }

  lemma NothingPushed(entries: seq<Entry>, currentBalance: int)
    ensures Pushed(entries, 0, currentBalance, [], currentBalance)
  {
  }

  // ----- What the chart shows -----

  function Total(rows: seq<Entry>): int {
    if rows == [] then 0 else Total(rows[..|rows| - 1]) + rows[|rows| - 1].delta
  }

  lemma TotalPush(rows: seq<Entry>, e: Entry)
    ensures Total(rows + [e]) == Total(rows) + e.delta
  {
    assert (rows + [e])[..|rows|] == rows;
  }

  lemma {:induction false} TotalConcat(a: seq<Entry>, b: seq<Entry>)
    ensures Total(a + b) == Total(a) + Total(b)
  {
    if b == [] {
      assert a + b == a;
    } else {
      var init, e := b[..|b| - 1], b[|b| - 1];
      TotalConcat(a, init);
      assert a + b == (a + init) + [e] && b == init + [e];
      TotalPush(a + init, e);
      TotalPush(init, e);
    }
  }

  lemma {:induction false} TotalBackwards(rows: seq<Entry>)
    ensures Total(Backwards(rows)) == Total(rows)
  {
    if rows != [] {
      var init, e := rows[..|rows| - 1], rows[|rows| - 1];
      TotalBackwards(init);
      TotalConcat([e], Backwards(init));
      TotalPush([], e);
      assert [] + [e] == [e];
    }
  }

  /** Each point is the opening balance plus the entries up to it. */
  lemma {:induction false} PointsAccumulate(entries: seq<Entry>, currentBalance: int, points: seq<Point>, n: nat)
    requires IsSeries(entries, currentBalance, points) && entries != [] && n <= |entries|
    ensures points[n].balance == points[0].balance + Total(Backwards(entries)[..n])
    decreases n
  {
    var chronological := Backwards(entries);
    if n == 0 {
      assert chronological[..0] == [];
    } else {
      PointsAccumulate(entries, currentBalance, points, n - 1);
      var e := entries[|entries| - 1 - (n - 1)];
      assert Follows(points[n - 1], e, points[n]);
      assert chronological[..n] == chronological[..n - 1] + [e];
      TotalPush(chronological[..n - 1], e);
    }
  }

  lemma {:induction false} InsertTotal(order: Order, e: Entry, rows: seq<Entry>)
    ensures Total(Insert(order, e, rows)) == Total(rows) + e.delta
  {
    TotalPush([], e);
    assert [] + [e] == [e];
    if rows == [] || Precedes(order, KeyOf(e), KeyOf(rows[0])) {
      TotalConcat([e], rows);
    } else {
      InsertTotal(order, e, rows[1..]);
      TotalConcat([rows[0]], Insert(order, e, rows[1..]));
      TotalConcat([rows[0]], rows[1..]);
      assert rows == [rows[0]] + rows[1..];
    }
  }

  /** A user's whole history adds up to the sum of their ledger rows. */
  lemma {:induction false} HistoryTotals(l: seq<Entry>, u: string, order: Order)
    ensures Total(Rows(l, Selection(u, None, order), None)) == Sum(l, ByUser(u))
  {
    hide Insert;
    if l != [] {
      var init, e := l[..|l| - 1], l[|l| - 1];
      HistoryTotals(init, u, order);
      InsertTotal(order, e, Rows(init, Selection(u, None, order), None));
    }
  }

  /** Once the whole history has been loaded, the chart starts from zero and each point is the sum of the
      ledger up to its entry. */
  lemma CompleteChartIsTheLedger(db: Db, u: string, limits: seq<nat>, points: seq<Point>)
    requires BalancesMatch(db) && DistinctIds(db.ledger) && Asking(limits)
    requires var w := Walk(Repeat(db.ledger, |limits|), limits, Selection(u, None, Newest), None);
      w.ended && w.items != [] && IsSeries(w.items, Balance(db, u), points)
    ensures var w := Walk(Repeat(db.ledger, |limits|), limits, Selection(u, None, Newest), None);
      && points[0].balance == 0
      && forall n :: 0 <= n <= |w.items| ==> points[n].balance == Total(Backwards(w.items)[..n])
  {
    hide Walk, Rows, DistinctIds, Follows;
    var entries := Walk(Repeat(db.ledger, |limits|), limits, Selection(u, None, Newest), None).items;
    WalkIsRows(db.ledger, limits, Selection(u, None, Newest), None);
    HistoryTotals(db.ledger, u, Newest);
    TotalBackwards(entries);
    assert Balance(db, u) == Sum(db.ledger, ByUser(u));
    PointsAccumulate(entries, Balance(db, u), points, |entries|);
    assert Backwards(entries)[..|entries|] == Backwards(entries);
    forall n | 0 <= n <= |entries| ensures points[n].balance == Total(Backwards(entries)[..n]) {
      PointsAccumulate(entries, Balance(db, u), points, n);
    }
  }
}
