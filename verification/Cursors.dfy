/** The text a history page hands out as its cursor, and what reading it back means. */
module Cursors {
  import opened Schema
  import opened Ledger
  import opened History

  const SEPARATOR := '|'

  /** Printing a timestamp in ISO form and parsing one back, both outside this model. */
  datatype Iso = Iso(stamp: int -> string, parse: string -> Option<int>)

  ghost predicate Faithful(iso: Iso) {
    forall t :: iso.parse(iso.stamp(t)) == Some(t) && iso.stamp(t) != "" && SEPARATOR !in iso.stamp(t)
  }

  function Encode(iso: Iso, k: Key): string {
    iso.stamp(k.at) + [SEPARATOR] + k.id
  }

  function Head(s: string): (r: string)
    ensures |r| <= |s| && SEPARATOR !in r
    ensures |r| < |s| ==> s[|r|] == SEPARATOR
    ensures r == s[..|r|]
  {
    if s == "" || s[0] == SEPARATOR then "" else [s[0]] + Head(s[1..])
  }

  function Split(s: string): seq<string> {
    if |Head(s)| == |s| then [s] else [Head(s)] + Split(s[|Head(s)| + 1..])
  }

  /** Anything that does not read as a cursor is None, which lists from the beginning. */
  function Decode(iso: Iso, s: string): Option<Key> {
    var parts := Split(s);
    if |parts| < 2 || parts[0] == "" || parts[1] == "" then None
    else
      var at := iso.parse(parts[0]);
      if at.None? then None else Some(Key(at.value, parts[1]))
  }

  lemma {:induction false} HeadStopsAtSeparator(a: string, b: string)
    requires SEPARATOR !in a
    ensures Head(a + [SEPARATOR] + b) == a
  {
    if a != "" {
      HeadStopsAtSeparator(a[1..], b);
      assert (a + [SEPARATOR] + b)[1..] == a[1..] + [SEPARATOR] + b;
    }
  }

  /** A cursor reads back as the key it was made from exactly when the id is not empty and does not contain
      the separator; otherwise the id is lost or cut short. */
  lemma CursorRoundTrips(iso: Iso, k: Key)
    requires Faithful(iso)
    ensures Decode(iso, Encode(iso, k)) == Some(k) <==> k.id != "" && SEPARATOR !in k.id
  {
    var stamp := iso.stamp(k.at);
    HeadStopsAtSeparator(stamp, k.id);
    var s := Encode(iso, k);
    assert s[|stamp| + 1..] == k.id;
    assert Split(s) == [stamp] + Split(k.id);
    assert Split(s)[1] == Head(k.id);
  }

  // ----- The service's own signature -----

  datatype TextPage = TextPage(items: seq<Entry>, nextCursor: Option<string>)

  function ListTransactions(iso: Iso, l: seq<Entry>, q: Selection, cursor: Option<string>, limit: nat): TextPage {
    var page := ListPage(l, q, if cursor.Some? then Decode(iso, cursor.value) else None, limit);
    TextPage(page.items, if page.next.Some? then Some(Encode(iso, page.next.value)) else None)
  }

  /** Following the cursors as text. */
  function TextWalk(iso: Iso, snaps: seq<seq<Entry>>, limits: seq<nat>, q: Selection, cursor: Option<string>): Walked
    requires |limits| == |snaps|
    decreases |snaps|
  {
    if snaps == [] then Walked([], false)
    else
      var page := ListTransactions(iso, snaps[0], q, cursor, limits[0]);
      if page.nextCursor.None? then Walked(page.items, true)
      else
        var rest := TextWalk(iso, snaps[1..], limits[1..], q, page.nextCursor);
        Walked(page.items + rest.items, rest.ended)
  }

  predicate PlainIds(snaps: seq<seq<Entry>>) {
    forall i, j :: 0 <= i < |snaps| && 0 <= j < |snaps[i]| ==> snaps[i][j].id != "" && SEPARATOR !in snaps[i][j].id
  }

  lemma NextIsPlain(l: seq<Entry>, q: Selection, cursor: Option<Key>, limit: nat)
    requires DistinctIds(l) && PlainIds([l]) && ListPage(l, q, cursor, limit).next.Some?
    ensures var k := ListPage(l, q, cursor, limit).next.value; k.id != "" && SEPARATOR !in k.id
  {
    hide Selected, Precedes, InOrder, Rows;
    RowsAreTheSelection(l, q, cursor);
    var items := ListPage(l, q, cursor, limit).items;
    var e := items[|items| - 1];
    assert e in Rows(l, q, cursor);
    var j :| 0 <= j < |l| && l[j] == e;
    assert [l][0][j] == e;
  }

  /** Over ids without the separator, walking by text is walking by key, so everything proved of `Walk` holds
      of what a client sees. */
  lemma {:induction false} TextWalkIsWalk(iso: Iso, snaps: seq<seq<Entry>>, limits: seq<nat>, q: Selection, cursor: Option<Key>)
    requires |limits| == |snaps| && Growing(snaps) && PlainIds(snaps) && Faithful(iso)
    requires cursor.Some? ==> cursor.value.id != "" && SEPARATOR !in cursor.value.id
    ensures TextWalk(iso, snaps, limits, q, if cursor.Some? then Some(Encode(iso, cursor.value)) else None)
         == Walk(snaps, limits, q, cursor)
    decreases |snaps|
  {
    hide ListPage, Faithful, Encode, Decode, DistinctIds;
    if snaps != [] {
      var page := ListPage(snaps[0], q, cursor, limits[0]);
      if cursor.Some? {
        CursorRoundTrips(iso, cursor.value);
      }
      if page.next.Some? {
        assert PlainIds([snaps[0]]);
        NextIsPlain(snaps[0], q, cursor, limits[0]);
        GrowingTail(snaps);
        TextWalkIsWalk(iso, snaps[1..], limits[1..], q, page.next);
      }
    }
  }

  // ----- Cursors nobody handed out -----

  /** The text is a timestamp, the separator and an id, with whatever follows a second separator ignored. */
  ghost predicate ReadsAs(iso: Iso, s: string, k: Key, stamp: string, rest: string) {
    && s == stamp + "|" + k.id + rest
    && stamp != "" && SEPARATOR !in stamp && iso.parse(stamp) == Some(k.at)
    && k.id != "" && SEPARATOR !in k.id
    && (rest != "" ==> rest[0] == SEPARATOR)
  }

  lemma {:induction false} HeadOfAll(s: string)
    requires SEPARATOR !in s
    ensures Head(s) == s
  {
    if s != "" {
      HeadOfAll(s[1..]);
      assert s == [s[0]] + s[1..];
    }
  }

  lemma HeadBeforeRest(id: string, rest: string)
    requires SEPARATOR !in id && (rest != "" ==> rest[0] == SEPARATOR)
    ensures Head(id + rest) == id
  {
    if rest == "" {
      assert id + rest == id;
      HeadOfAll(id);
    } else {
      assert id + rest == id + [SEPARATOR] + rest[1..];
      HeadStopsAtSeparator(id, rest[1..]);
    }
  }

  lemma HeadParts(s: string)
    requires |Head(s)| < |s|
    ensures s == Head(s) + [SEPARATOR] + s[|Head(s)| + 1..]
    ensures Split(s) == [Head(s)] + Split(s[|Head(s)| + 1..])
  {
  }

  lemma SplitStarts(s: string)
    ensures Split(s) != [] && Split(s)[0] == Head(s)
    ensures |Split(s)| >= 2 ==> |Head(s)| < |s|
    ensures s == Head(s) + s[|Head(s)|..]
    ensures s[|Head(s)|..] != "" ==> s[|Head(s)|] == SEPARATOR
  {
  }

  lemma ReadsBack(iso: Iso, s: string, k: Key, stamp: string, rest: string)
    requires ReadsAs(iso, s, k, stamp, rest)
    ensures Decode(iso, s) == Some(k)
  {
    hide Head, Split;
    var tail := k.id + rest;
    assert s == stamp + [SEPARATOR] + tail;
    HeadStopsAtSeparator(stamp, tail);
    HeadBeforeRest(k.id, rest);
    HeadParts(s);
    SplitStarts(tail);
    assert s[|stamp| + 1..] == tail;
  }

  /** Where a text that decodes comes apart. */
  lemma PartsOf(iso: Iso, s: string, k: Key) returns (stamp: string, rest: string)
    requires Decode(iso, s) == Some(k)
    ensures ReadsAs(iso, s, k, stamp, rest)
  {
    hide Split, Head;
    SplitStarts(s);
    HeadParts(s);
    stamp := Head(s);
    var tail := s[|stamp| + 1..];
    SplitStarts(tail);
    rest := tail[|Head(tail)|..];
    JoinedAgain(s, stamp, tail, Head(tail), rest);
  }

  lemma JoinedAgain(s: string, stamp: string, tail: string, id: string, rest: string)
    requires s == stamp + [SEPARATOR] + tail && tail == id + rest
    ensures s == stamp + [SEPARATOR] + id + rest
  {
  }

  /** Exactly which texts read as a cursor, and which one. */
  lemma ReadableExactly(iso: Iso, s: string, k: Key)
    ensures Decode(iso, s) == Some(k) <==> exists stamp, rest :: ReadsAs(iso, s, k, stamp, rest)
  {
    hide ReadsAs, Decode;
    forall stamp, rest | ReadsAs(iso, s, k, stamp, rest) ensures Decode(iso, s) == Some(k) {
      ReadsBack(iso, s, k, stamp, rest);
    }
    if Decode(iso, s) == Some(k) {
      var stamp, rest := PartsOf(iso, s, k);
    }
  }

  /** A cursor that does not read as one lists from the beginning rather than failing. */
  lemma GarbageStartsOver(iso: Iso, l: seq<Entry>, q: Selection, text: string, limit: nat)
    requires forall k, stamp, rest :: !ReadsAs(iso, text, k, stamp, rest)
    ensures ListTransactions(iso, l, q, Some(text), limit) == ListTransactions(iso, l, q, None, limit)
  {
    hide ReadsAs, ListPage;
    if Decode(iso, text).Some? {
      ReadableExactly(iso, text, Decode(iso, text).value);
    }
  }
}
