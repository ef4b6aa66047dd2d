/** Reading a user's history page by page, while it grows. */
module History {
  import opened Schema
  import opened Ledger

  // ----- The order entries are read in -----

  /** What a cursor stands for: an entry's creation time, and its id to break ties. */
  datatype Key = Key(at: int, id: string)

  function KeyOf(e: Entry): Key {
    Key(e.createdAt, e.id)
  }

  predicate TextLess(a: string, b: string) {
    b != "" && (a == "" || a[0] < b[0] || (a[0] == b[0] && TextLess(a[1..], b[1..])))
  }

  predicate KeyLess(a: Key, b: Key) {
    a.at < b.at || (a.at == b.at && TextLess(a.id, b.id))
  }

  datatype Order = Newest | Oldest

  /** `a` is read strictly before `b`; the tie-break flips with the direction. */
  predicate Precedes(order: Order, a: Key, b: Key) {
    if order == Oldest then KeyLess(a, b) else KeyLess(b, a)
  }

  lemma {:induction false} TextTransitive(a: string, b: string, c: string)
    requires TextLess(a, b) && TextLess(b, c)
    ensures TextLess(a, c)
  {
    if a != "" && a[0] == b[0] && b[0] == c[0] {
      TextTransitive(a[1..], b[1..], c[1..]);
    }
  }

  lemma {:induction false} TextIrreflexive(a: string)
    ensures !TextLess(a, a)
  {
    if a != "" {
      TextIrreflexive(a[1..]);
    }
  }

  lemma {:induction false} TextTotal(a: string, b: string)
    ensures a == b || TextLess(a, b) || TextLess(b, a)
  {
    if a != "" && b != "" && a[0] == b[0] {
      TextTotal(a[1..], b[1..]);
      assert a == [a[0]] + a[1..] && b == [b[0]] + b[1..];
    }
  }

  /** Reading order is a strict total order on keys, in both directions. */
  lemma PrecedesIsStrictTotalOrder(order: Order, a: Key, b: Key, c: Key)
    ensures !Precedes(order, a, a)
    ensures Precedes(order, a, b) && Precedes(order, b, c) ==> Precedes(order, a, c)
    ensures a == b || Precedes(order, a, b) || Precedes(order, b, a)
    ensures !(Precedes(order, a, b) && Precedes(order, b, a))
  {
    TextIrreflexive(a.id);
    TextTotal(a.id, b.id);
    if TextLess(a.id, b.id) && TextLess(b.id, c.id) {
      TextTransitive(a.id, b.id, c.id);
    }
    if TextLess(c.id, b.id) && TextLess(b.id, a.id) {
      TextTransitive(c.id, b.id, a.id);
    }
    if TextLess(a.id, b.id) && TextLess(b.id, a.id) {
      TextTransitive(a.id, b.id, a.id);
    }
  }

  ghost predicate InOrder(order: Order, rows: seq<Entry>) {
    forall i, j :: 0 <= i < j < |rows| ==> Precedes(order, KeyOf(rows[i]), KeyOf(rows[j]))
  }

  // ----- One page -----

  datatype Selection = Selection(userId: string, kind: Option<EntryType>, order: Order)

  /** The WHERE clause: the user, the type if one is asked for, and strictly beyond the cursor. */
  predicate Selected(q: Selection, cursor: Option<Key>, e: Entry) {
    && e.userId == q.userId
    && (q.kind.Some? ==> e.kind == q.kind.value)
    && (cursor.Some? ==> Precedes(q.order, cursor.value, KeyOf(e)))
  }

  function Insert(order: Order, e: Entry, rows: seq<Entry>): seq<Entry> {
    if rows == [] || Precedes(order, KeyOf(e), KeyOf(rows[0])) then [e] + rows
    else [rows[0]] + Insert(order, e, rows[1..])
  }

  /** The selected rows in reading order. */
  function Rows(l: seq<Entry>, q: Selection, cursor: Option<Key>): seq<Entry> {
    if l == [] then []
    else
      var rest := Rows(l[..|l| - 1], q, cursor);
      if Selected(q, cursor, l[|l| - 1]) then Insert(q.order, l[|l| - 1], rest) else rest
  }

  datatype Page = Page(items: seq<Entry>, next: Option<Key>)

  /** One row more than asked for is fetched, to learn whether another page exists. */
  function ListPage(l: seq<Entry>, q: Selection, cursor: Option<Key>, limit: nat): Page {
    var rows := Rows(l, q, cursor);
    var taken := if |rows| <= limit + 1 then rows else rows[..limit + 1];
    var hasMore := |taken| > limit;
    var items := if hasMore then taken[..limit] else taken;
    Page(items, if hasMore && items != [] then Some(KeyOf(items[|items| - 1])) else None)
  }

  lemma {:induction false} InsertHolds(order: Order, e: Entry, rows: seq<Entry>)
    requires InOrder(order, rows) && forall i :: 0 <= i < |rows| ==> rows[i].id != e.id
    ensures InOrder(order, Insert(order, e, rows))
    ensures forall x :: x in Insert(order, e, rows) <==> x in rows || x == e
    ensures |Insert(order, e, rows)| == |rows| + 1
  {
    hide Precedes;
    if rows != [] && !Precedes(order, KeyOf(e), KeyOf(rows[0])) {
      var rest := Insert(order, e, rows[1..]);
      InsertHolds(order, e, rows[1..]);
      forall x | x in rest ensures Precedes(order, KeyOf(rows[0]), KeyOf(x)) {
        PrecedesIsStrictTotalOrder(order, KeyOf(e), KeyOf(rows[0]), KeyOf(x));
      }
      PushFront(order, rows[0], rest);
      assert rows == [rows[0]] + rows[1..];
    } else {
      forall x | x in rows ensures Precedes(order, KeyOf(e), KeyOf(x)) {
        var i :| 0 <= i < |rows| && rows[i] == x;
        PrecedesIsStrictTotalOrder(order, KeyOf(e), KeyOf(rows[0]), KeyOf(x));
      }
      PushFront(order, e, rows);
    }
  }

  lemma PushFront(order: Order, e: Entry, rows: seq<Entry>)
    requires InOrder(order, rows) && forall x :: x in rows ==> Precedes(order, KeyOf(e), KeyOf(x))
    ensures InOrder(order, [e] + rows)
  {
    hide Precedes;
  }

  /** The rows of a page query are exactly the selected ones, each once, strictly in reading order. */
  lemma {:induction false} RowsAreTheSelection(l: seq<Entry>, q: Selection, cursor: Option<Key>)
    requires DistinctIds(l)
    ensures InOrder(q.order, Rows(l, q, cursor))
    ensures forall x :: x in Rows(l, q, cursor) <==> x in l && Selected(q, cursor, x)
    ensures |Rows(l, q, cursor)| <= |l|
  {
    hide Selected, InOrder;
    if l == [] {
      NothingInOrder(q.order);
    } else {
      var init, e := l[..|l| - 1], l[|l| - 1];
      RowsAreTheSelection(init, q, cursor);
      assert l == init + [e];
      if Selected(q, cursor, e) {
        var rest := Rows(init, q, cursor);
        forall i | 0 <= i < |rest| ensures rest[i].id != e.id {
          assert rest[i] in init;
        }
        InsertHolds(q.order, e, rest);
      }
    }
  }

  lemma NothingInOrder(order: Order)
    ensures InOrder(order, [])
  {
  }

  /** Rows in order are determined by what they contain. */
  lemma {:induction false} OrderIsUnique(order: Order, a: seq<Entry>, b: seq<Entry>)
    requires InOrder(order, a) && InOrder(order, b) && forall x :: x in a <==> x in b
    ensures a == b
  {
    assert |b| > 0 ==> b[0] in b;
    if a == [] {
    } else {
      assert a[0] in b && b != [];
      assert b[0] in a;
      SameFirst(order, a, b);
      FirstNotAgain(order, a);
      FirstNotAgain(order, b);
      OrderIsUnique(order, a[1..], b[1..]);
      assert a == [a[0]] + a[1..] && b == [b[0]] + b[1..];
    }
  }

  lemma SameFirst(order: Order, a: seq<Entry>, b: seq<Entry>)
    requires InOrder(order, a) && InOrder(order, b) && a != [] && b != [] && a[0] in b && b[0] in a
    ensures a[0] == b[0]
  {
    hide Precedes;
    var i :| 0 <= i < |b| && b[i] == a[0];
    var j :| 0 <= j < |a| && a[j] == b[0];
    PrecedesIsStrictTotalOrder(order, KeyOf(a[0]), KeyOf(b[0]), KeyOf(a[0]));
  }

  lemma FirstNotAgain(order: Order, rows: seq<Entry>)
    requires InOrder(order, rows) && rows != []
    ensures forall x :: x in rows[1..] <==> x in rows && x != rows[0]
  {
    hide Precedes;
    forall i | 1 <= i < |rows| ensures rows[i] != rows[0] {
      PrecedesIsStrictTotalOrder(order, KeyOf(rows[0]), KeyOf(rows[i]), KeyOf(rows[i]));
    }
  }

  /** A page is the first `limit` rows, and it ends the walk exactly when nothing is left or nothing was
      asked for: a page of size zero claims to be the last one however much remains. */
  lemma PageIsPrefix(l: seq<Entry>, q: Selection, cursor: Option<Key>, limit: nat)
    ensures var rows := Rows(l, q, cursor);
      var page := ListPage(l, q, cursor, limit);
      && page.items == (if |rows| <= limit then rows else rows[..limit])
      && (page.next.None? <==> |rows| <= limit || limit == 0)
      && (page.next.Some? ==> page.next == Some(KeyOf(rows[limit - 1])))
  {
  }

  // ----- Walking -----

  datatype Walked = Walked(items: seq<Entry>, ended: bool)

  /** Following cursors from page to page. The ledger each page is read from, and the size asked for, may
      differ from page to page. */
  function Walk(snaps: seq<seq<Entry>>, limits: seq<nat>, q: Selection, cursor: Option<Key>): Walked
    requires |limits| == |snaps|
    decreases |snaps|
  {
    if snaps == [] then Walked([], false)
    else
      var page := ListPage(snaps[0], q, cursor, limits[0]);
      if page.next.None? then Walked(page.items, true)
      else
        var rest := Walk(snaps[1..], limits[1..], q, page.next);
        Walked(page.items + rest.items, rest.ended)
  }

  /** Between pages the ledger may only be appended to. */
  ghost predicate Growing(snaps: seq<seq<Entry>>) {
    && (forall i :: 0 <= i < |snaps| ==> DistinctIds(snaps[i]))
    && (forall i, j :: 0 <= i < j < |snaps| ==> snaps[i] <= snaps[j])
  }

  predicate Asking(limits: seq<nat>) {
    forall i :: 0 <= i < |limits| ==> limits[i] >= 1
  }

  lemma GrowingTail(snaps: seq<seq<Entry>>)
    requires Growing(snaps) && snaps != []
    ensures Growing(snaps[1..])
  {
    hide DistinctIds;
  }

  lemma InOrderConcat(order: Order, a: seq<Entry>, b: seq<Entry>)
    requires InOrder(order, a) && InOrder(order, b)
    requires a != [] && forall x :: x in b ==> Precedes(order, KeyOf(a[|a| - 1]), KeyOf(x))
    ensures InOrder(order, a + b)
  {
    hide Precedes;
    forall i, j | 0 <= i < j < |a + b| ensures Precedes(order, KeyOf((a + b)[i]), KeyOf((a + b)[j])) {
      if i < |a| <= j {
        assert (a + b)[j] in b;
        PrecedesIsStrictTotalOrder(order, KeyOf(a[i]), KeyOf(a[|a| - 1]), KeyOf((a + b)[j]));
      }
    }
  }

  /** What one page returns, and the rows it leaves for later: those beyond the cursor it hands out. */
  lemma PageSplits(l: seq<Entry>, q: Selection, cursor: Option<Key>, limit: nat)
    requires DistinctIds(l) && limit >= 1
    ensures var page := ListPage(l, q, cursor, limit);
      && InOrder(q.order, page.items)
      && (forall x :: x in page.items ==> x in l && Selected(q, cursor, x))
      && (page.next.None? ==> forall x :: x in l && Selected(q, cursor, x) ==> x in page.items)
      && (page.next.Some? ==> page.items != [] && page.next.value == KeyOf(page.items[|page.items| - 1]))
      && (page.next.Some? ==> forall x :: x in l && Selected(q, cursor, x) ==> x in page.items || Selected(q, page.next, x))
      && (page.next.Some? && cursor.Some? ==> Precedes(q.order, cursor.value, page.next.value))
  {
    hide Precedes, ListPage, DistinctIds;
    RowsAreTheSelection(l, q, cursor);
    PageIsPrefix(l, q, cursor, limit);
    var rows, page := Rows(l, q, cursor), ListPage(l, q, cursor, limit);
    if page.next.Some? {
      forall x | x in rows ensures x in page.items || Selected(q, page.next, x) {
        var i :| 0 <= i < |rows| && rows[i] == x;
        if i < limit {
          assert page.items[i] == x;
        }
      }
      assert rows[limit - 1] in rows;
    }
  }

  ghost predicate Everywhere(snaps: seq<seq<Entry>>, q: Selection, cursor: Option<Key>, items: seq<Entry>) {
    forall x :: x in items ==> Selected(q, cursor, x) && exists i :: 0 <= i < |snaps| && x in snaps[i]
  }

  /** A walk over a growing ledger never returns an entry twice and returns them strictly in order; if it
      ends, it has returned every matching entry that was there when it started. */
  lemma {:induction false} WalkIsFaithful(snaps: seq<seq<Entry>>, limits: seq<nat>, q: Selection, cursor: Option<Key>)
    requires |limits| == |snaps| && Growing(snaps) && Asking(limits)
    ensures var w := Walk(snaps, limits, q, cursor);
      && InOrder(q.order, w.items)
      && Everywhere(snaps, q, cursor, w.items)
      && (w.ended ==> forall x :: x in snaps[0] && Selected(q, cursor, x) ==> x in w.items)
    decreases |snaps|
  {
    hide Selected, InOrder, ListPage, Precedes, DistinctIds;
    if snaps == [] {
      NothingInOrder(q.order);
    } else {
      PageSplits(snaps[0], q, cursor, limits[0]);
      var page := ListPage(snaps[0], q, cursor, limits[0]);
      if page.next.Some? {
        var later, w := Walk(snaps[1..], limits[1..], q, page.next), Walk(snaps, limits, q, cursor);
        GrowingTail(snaps);
        WalkIsFaithful(snaps[1..], limits[1..], q, page.next);
        forall x | x in later.items ensures Precedes(q.order, page.next.value, KeyOf(x)) && Selected(q, cursor, x) {
          Beyond(q, cursor, page.next.value, x);
        }
        InOrderConcat(q.order, page.items, later.items);
        forall x | x in w.items ensures exists i :: 0 <= i < |snaps| && x in snaps[i] {
          if x in later.items {
            var i :| 0 <= i < |snaps[1..]| && x in snaps[1..][i];
            assert x in snaps[i + 1];
          }
        }
        if w.ended {
          forall x | x in snaps[0] && Selected(q, cursor, x) ensures x in w.items {
            if x !in page.items {
              assert later.ended && |snaps| > 1;
              StillThere(snaps[0], snaps[1], x);
            }
          }
        }
      }
    }
  }

  lemma Beyond(q: Selection, cursor: Option<Key>, next: Key, x: Entry)
    requires Selected(q, Some(next), x)
    requires cursor.Some? ==> Precedes(q.order, cursor.value, next)
    ensures Precedes(q.order, next, KeyOf(x)) && Selected(q, cursor, x)
  {
    hide Precedes;
    if cursor.Some? {
      PrecedesIsStrictTotalOrder(q.order, cursor.value, next, KeyOf(x));
    }
  }

  lemma StillThere(l: seq<Entry>, m: seq<Entry>, x: Entry)
    requires l <= m && x in l
    ensures x in m
  {
    var i :| 0 <= i < |l| && l[i] == x;
    assert m[i] == x;
  }

  // ----- A ledger that stands still -----

  function Repeat(l: seq<Entry>, n: nat): seq<seq<Entry>> {
    seq(n, _ => l)
  }

  /** With nothing appended, a walk that asks for at least one entry a page ends: there are never more pages
      than matching entries, plus the one that finds there are none. */
  lemma {:induction false} WalkEnds(l: seq<Entry>, limits: seq<nat>, q: Selection, cursor: Option<Key>)
    requires DistinctIds(l) && Asking(limits) && |limits| > |Rows(l, q, cursor)|
    ensures Walk(Repeat(l, |limits|), limits, q, cursor).ended
    decreases |limits|
  {
    hide Selected, InOrder, Precedes, Rows, ListPage, DistinctIds;
    var snaps := Repeat(l, |limits|);
    var page := ListPage(l, q, cursor, limits[0]);
    if page.next.Some? {
      RowsShrink(l, q, cursor, limits[0]);
      assert snaps[1..] == Repeat(l, |limits[1..]|);
      WalkEnds(l, limits[1..], q, page.next);
    }
  }

  lemma RowsShrink(l: seq<Entry>, q: Selection, cursor: Option<Key>, limit: nat)
    requires DistinctIds(l) && limit >= 1 && ListPage(l, q, cursor, limit).next.Some?
    ensures |Rows(l, q, ListPage(l, q, cursor, limit).next)| < |Rows(l, q, cursor)|
  {
    PageRest(l, q, cursor, limit);
    PageIsPrefix(l, q, cursor, limit);
  }

  /** What the next page starts from is what this page left. */
  lemma PageRest(l: seq<Entry>, q: Selection, cursor: Option<Key>, limit: nat)
    requires DistinctIds(l) && limit >= 1 && ListPage(l, q, cursor, limit).next.Some?
    ensures limit < |Rows(l, q, cursor)|
    ensures Rows(l, q, ListPage(l, q, cursor, limit).next) == Rows(l, q, cursor)[limit..]
  {
    hide Precedes, DistinctIds, ListPage, Rows;
    var next := ListPage(l, q, cursor, limit).next;
    PageIsPrefix(l, q, cursor, limit);
    PageSplits(l, q, cursor, limit);
    RowsAreTheSelection(l, q, cursor);
    RowsAreTheSelection(l, q, next);
    var rows, rest := Rows(l, q, cursor), Rows(l, q, next);
    forall x ensures x in rest <==> x in rows[limit..] {
      if x in rest {
        Beyond(q, cursor, next.value, x);
        var i :| 0 <= i < |rows| && rows[i] == x;
        PrecedesIsStrictTotalOrder(q.order, KeyOf(rows[limit - 1]), KeyOf(x), KeyOf(x));
        assert i >= limit;
        assert rows[limit..][i - limit] == x;
      }
      if x in rows[limit..] {
        var i :| 0 <= i < |rows[limit..]| && rows[limit..][i] == x;
        assert rows[limit + i] == x && x in rows;
        PrecedesIsStrictTotalOrder(q.order, KeyOf(rows[limit - 1]), KeyOf(x), KeyOf(x));
      }
    }
    OrderIsUnique(q.order, rest, rows[limit..]);
  }

  /** On a fixed ledger a walk that ends has returned exactly the selected rows, whatever the page sizes. */
  lemma {:induction false} WalkIsRows(l: seq<Entry>, limits: seq<nat>, q: Selection, cursor: Option<Key>)
    requires DistinctIds(l) && Asking(limits) && Walk(Repeat(l, |limits|), limits, q, cursor).ended
    ensures Walk(Repeat(l, |limits|), limits, q, cursor).items == Rows(l, q, cursor)
    decreases |limits|
  {
    hide Selected, InOrder, Precedes, Rows, ListPage, DistinctIds;
    var page := ListPage(l, q, cursor, limits[0]);
    PageIsPrefix(l, q, cursor, limits[0]);
    if page.next.Some? {
      PageRest(l, q, cursor, limits[0]);
      assert Repeat(l, |limits|)[1..] == Repeat(l, |limits[1..]|);
      WalkIsRows(l, limits[1..], q, page.next);
    }
  }

  function Backwards<T>(rows: seq<T>): (r: seq<T>)
    ensures |r| == |rows|
    ensures forall i :: 0 <= i < |rows| ==> r[i] == rows[|rows| - 1 - i]
  {
    if rows == [] then [] else [rows[|rows| - 1]] + Backwards(rows[..|rows| - 1])
  }

  /** Reading a ledger from the oldest end is reading it from the newest end backwards, for every pair of
      page-size sequences and every type filter. */
  lemma OldestIsNewestReversed(l: seq<Entry>, userId: string, kind: Option<EntryType>, down: seq<nat>, up: seq<nat>)
    requires DistinctIds(l) && Asking(down) && Asking(up)
    requires Walk(Repeat(l, |down|), down, Selection(userId, kind, Newest), None).ended
    requires Walk(Repeat(l, |up|), up, Selection(userId, kind, Oldest), None).ended
    ensures Walk(Repeat(l, |up|), up, Selection(userId, kind, Oldest), None).items
         == Backwards(Walk(Repeat(l, |down|), down, Selection(userId, kind, Newest), None).items)
  {
    hide Rows, Walk, DistinctIds, TextLess;
    var newest, oldest := Selection(userId, kind, Newest), Selection(userId, kind, Oldest);
    WalkIsRows(l, down, newest, None);
    WalkIsRows(l, up, oldest, None);
    RowsAreTheSelection(l, newest, None);
    RowsAreTheSelection(l, oldest, None);
    var a, b := Rows(l, oldest, None), Backwards(Rows(l, newest, None));
    forall x ensures x in b <==> x in Rows(l, newest, None) {
      BackwardsHolds(Rows(l, newest, None), x);
    }
    OrderIsUnique(Oldest, a, b);
  }

  lemma BackwardsHolds(rows: seq<Entry>, x: Entry)
    ensures x in Backwards(rows) <==> x in rows
  {
    if x in rows {
      var i :| 0 <= i < |rows| && rows[i] == x;
      assert Backwards(rows)[|rows| - 1 - i] == x;
    }
  }
}
