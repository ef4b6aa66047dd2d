/** What reading newest or oldest first means in time: the entries of a page and of a walk, by when they were created. */
module Chronology {
  import opened Schema
  import opened Ledger
  import opened History
  import opened Sparkline

  /** `a` comes before `b` as text: at the first place where they differ it has the smaller character, or it ends there. */
  ghost predicate TextBefore(a: string, b: string) {
    exists n: nat :: FirstDiffer(a, b, n) && (n == |a| || (n < |b| && a[n] < b[n]))
  }

  /** The texts agree up to here and no further. */
  predicate FirstDiffer(a: string, b: string, n: nat) {
    && n <= |a| && n <= |b| && a[..n] == b[..n]
    && (n < |a| || n < |b|) && (n < |a| && n < |b| ==> a[n] != b[n])
  }

  lemma {:induction false} TextLessIsBefore(a: string, b: string)
    ensures TextLess(a, b) <==> TextBefore(a, b)
  {
    if a == "" || b == "" || a[0] != b[0] {
      assert a[..0] == b[..0];
      if TextLess(a, b) {
        assert FirstDiffer(a, b, 0);
      }
      if TextBefore(a, b) {
        var n: nat :| FirstDiffer(a, b, n) && (n == |a| || (n < |b| && a[n] < b[n]));
        FirstIsZero(a, b, n);
      }
    } else {
      TextLessIsBefore(a[1..], b[1..]);
      if TextBefore(a[1..], b[1..]) {
        var n: nat :| FirstDiffer(a[1..], b[1..], n) && (n == |a[1..]| || (n < |b[1..]| && a[1..][n] < b[1..][n]));
        assert a[..n + 1] == [a[0]] + a[1..][..n] && b[..n + 1] == [b[0]] + b[1..][..n];
        assert FirstDiffer(a, b, n + 1);
      }
      if TextBefore(a, b) {
        var n: nat :| FirstDiffer(a, b, n) && (n == |a| || (n < |b| && a[n] < b[n]));
        assert n > 0;
        assert a[1..][..n - 1] == a[..n][1..] && b[1..][..n - 1] == b[..n][1..];
        assert FirstDiffer(a[1..], b[1..], n - 1);
      }
    }
  }

  lemma FirstIsZero(a: string, b: string, n: nat)
    requires FirstDiffer(a, b, n) && (a == "" || b == "" || a[0] != b[0])
    ensures n == 0
  {
    assert forall k :: 0 <= k < n ==> a[..n][k] == a[k] && b[..n][k] == b[k];
  }

  /** The entry lies strictly on the far side of this instant and id: earlier when reading newest first, later when
      reading oldest first, and at the same instant by the id. */
  ghost predicate Further(order: Order, at: int, id: string, e: Entry) {
    match order
    case Newest => e.createdAt < at || (e.createdAt == at && TextBefore(e.id, id))
    case Oldest => e.createdAt > at || (e.createdAt == at && TextBefore(id, e.id))
  }

  ghost predicate InTime(order: Order, items: seq<Entry>) {
    forall i, j :: 0 <= i < j < |items| ==> Further(order, items[i].createdAt, items[i].id, items[j])
  }

  lemma PrecedesInTime(order: Order, at: int, id: string, e: Entry)
    ensures Precedes(order, Key(at, id), KeyOf(e)) <==> Further(order, at, id, e)
  {
    TextLessIsBefore(e.id, id);
    TextLessIsBefore(id, e.id);
    hide TextLess, TextBefore;
  }

  lemma OrderedInTime(order: Order, items: seq<Entry>)
    requires InOrder(order, items)
    ensures InTime(order, items)
  {
    hide Precedes, Further;
    forall i, j | 0 <= i < j < |items| ensures Further(order, items[i].createdAt, items[i].id, items[j]) {
      PrecedesInTime(order, items[i].createdAt, items[i].id, items[j]);
    }
  }

  /** The entry is one the reader asked for: the user's, of the type if one is asked for, and beyond the cursor if there
      is one. */
  ghost predicate Wanted(q: Selection, cursor: Option<Key>, e: Entry) {
    && e.userId == q.userId
    && (q.kind == None || q.kind == Some(e.kind))
    && (cursor.Some? ==> Further(q.order, cursor.value.at, cursor.value.id, e))
  }

  lemma SelectedIsWanted(q: Selection, cursor: Option<Key>, e: Entry)
    ensures Selected(q, cursor, e) <==> Wanted(q, cursor, e)
  {
    if cursor.Some? {
      PrecedesInTime(q.order, cursor.value.at, cursor.value.id, e);
    }
    hide Precedes, Further;
  }

  /** A page holds entries the reader asked for, strictly newest or oldest first by creation time; and an entry asked for
      that it does not hold lies beyond all it holds, in a later page. Its cursor is the time and id of its last entry,
      handed out exactly when it is full and something is left. */
  lemma PageReadsInTime(l: seq<Entry>, q: Selection, cursor: Option<Key>, limit: nat)
    requires DistinctIds(l)
    ensures var page := ListPage(l, q, cursor, limit);
      && |page.items| <= limit
      && InTime(q.order, page.items)
      && (forall e :: e in page.items ==> e in l && Wanted(q, cursor, e))
      && (forall e :: e in l && Wanted(q, cursor, e) && e !in page.items ==>
            |page.items| == limit && forall x :: x in page.items ==> Further(q.order, x.createdAt, x.id, e))
      && (page.next.Some? ==>
            && page.items != []
            && page.next.value == Key(page.items[|page.items| - 1].createdAt, page.items[|page.items| - 1].id))
      && (page.next.Some? <==> limit > 0 && exists e :: e in l && Wanted(q, cursor, e) && e !in page.items)
  {
    hide Rows, ListPage, Further, Selected, InOrder, InTime, Wanted, DistinctIds;
    RowsAreTheSelection(l, q, cursor);
    PageIsPrefix(l, q, cursor, limit);
    var rows, page := Rows(l, q, cursor), ListPage(l, q, cursor, limit);
    forall e ensures Selected(q, cursor, e) <==> Wanted(q, cursor, e) {
      SelectedIsWanted(q, cursor, e);
    }
    OrderedInTime(q.order, rows);
    PrefixInTime(q.order, rows, page.items);
    if |rows| > limit {
      RestIsFurther(q.order, rows, limit);
      assert rows[limit] in rows;
    }
  }

  lemma PrefixInTime(order: Order, rows: seq<Entry>, items: seq<Entry>)
    requires InTime(order, rows) && items <= rows
    ensures InTime(order, items)
  {
    hide Further;
  }

  lemma RestIsFurther(order: Order, rows: seq<Entry>, limit: nat)
    requires InTime(order, rows) && limit < |rows|
    ensures forall e, x :: e in rows && e !in rows[..limit] && x in rows[..limit] ==> Further(order, x.createdAt, x.id, e)
    ensures rows[limit] !in rows[..limit]
  {
    forall e, x | e in rows && e !in rows[..limit] && x in rows[..limit] ensures Further(order, x.createdAt, x.id, e) {
      assert rows == rows[..limit] + rows[limit..];
      var j :| 0 <= j < |rows[limit..]| && rows[limit..][j] == e;
      var i :| 0 <= i < limit && rows[..limit][i] == x;
      assert rows[i] == x && rows[limit + j] == e;
    }
    forall i | 0 <= i < limit ensures rows[i] != rows[limit] {
      NeverFurtherThanItself(order, rows[limit]);
      assert Further(order, rows[i].createdAt, rows[i].id, rows[limit]);
    }
  }

  lemma NeverFurtherThanItself(order: Order, e: Entry)
    ensures !Further(order, e.createdAt, e.id, e)
  {
    TextIrreflexive(e.id);
    TextLessIsBefore(e.id, e.id);
    hide TextBefore, TextLess;
  }

  /** A whole walk, over a ledger that grows between its pages, reads strictly newest or oldest first by creation time
      from page to page, and only what was asked for. */
  lemma WalkReadsInTime(snaps: seq<seq<Entry>>, limits: seq<nat>, q: Selection, cursor: Option<Key>)
    requires |limits| == |snaps| && Growing(snaps) && Asking(limits)
    ensures var w := Walk(snaps, limits, q, cursor);
      && InTime(q.order, w.items)
      && (forall e :: e in w.items ==> Wanted(q, cursor, e))
      && (w.ended ==> forall e :: e in snaps[0] && Wanted(q, cursor, e) ==> e in w.items)
  {
    hide Walk, Further, Selected, InOrder, InTime, Wanted, Growing;
    WalkIsFaithful(snaps, limits, q, cursor);
    OrderedInTime(q.order, Walk(snaps, limits, q, cursor).items);
    forall e ensures Selected(q, cursor, e) <==> Wanted(q, cursor, e) {
      SelectedIsWanted(q, cursor, e);
    }
  }

  /** So the points of a chart of any stretch of a newest-first walk never go back in time. */
  lemma ChartRunsForward(snaps: seq<seq<Entry>>, limits: seq<nat>, u: string, points: seq<Point>, balance: int)
    requires |limits| == |snaps| && Growing(snaps) && Asking(limits)
    requires IsSeries(Walk(snaps, limits, Selection(u, None, Newest), None).items, balance, points)
    ensures forall i, j :: 0 <= i < j < |points| ==> points[i].time <= points[j].time
  {
    hide Walk, Growing, Wanted;
    WalkReadsInTime(snaps, limits, Selection(u, None, Newest), None);
    SeriesRunsForward(Walk(snaps, limits, Selection(u, None, Newest), None).items, balance, points);
  }

  lemma SeriesRunsForward(entries: seq<Entry>, balance: int, points: seq<Point>)
    requires InTime(Newest, entries) && IsSeries(entries, balance, points)
    ensures forall i, j :: 0 <= i < j < |points| ==> points[i].time <= points[j].time
  {
    hide TextBefore;
    var n := |entries|;
    forall i | 1 <= i < |points| ensures points[i].time == entries[n - i].createdAt {
      assert Follows(points[i - 1], entries[n - 1 - (i - 1)], points[i]);
    }
    forall i, j | 0 <= i < j < |points| ensures points[i].time <= points[j].time {
      var a, b := if i == 0 then n - 1 else n - i, n - j;
      if b < a {
        assert Further(Newest, entries[b].createdAt, entries[b].id, entries[a]);
      }
    }
  }
}
