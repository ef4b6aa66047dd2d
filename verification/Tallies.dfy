/** What the answer of a backfill counts, and which deliveries it lists. */
module Tallies {
  import opened Schema
  import opened Earning
  import opened Ledger
  import opened Webhook
  import opened Atoms
  import opened Ingestion
  import opened Parking
  import opened Answers

  // ----- The list -----

  /** The delivery is waiting, for this user if one is asked for, and of this type if one is asked for. */
  predicate Waits(db: Db, x: string, userRef: Option<string>, activityType: Option<string>) {
    && x in db.deliveries && db.deliveries[x].status == UNMATCHED
    && (userRef == None || db.deliveries[x].userRef == userRef)
    && (activityType == None || db.deliveries[x].activityType == activityType)
  }

  ghost predicate ListsWaiting(db: Db, userRef: Option<string>, activityType: Option<string>, dids: seq<string>) {
    && (forall x :: x in dids <==> Waits(db, x, userRef, activityType))
    && (forall i, j :: 0 <= i < j < |dids| ==> dids[i] != dids[j])
    && (forall i :: 0 <= i < |dids| ==> dids[i] in db.deliveries)
    && (forall i, j :: 0 <= i < j < |dids| ==> db.deliveries[dids[i]].receivedAt <= db.deliveries[dids[j]].receivedAt)
  }

  /** The candidates are exactly the deliveries that wait for what was asked, each once, the longest waiting first. */
  lemma CandidatesWait(db: Db, userRef: Option<string>, activityType: Option<string>, dids: seq<string>)
    ensures Candidates(db, Filter(userRef, activityType), dids) <==> ListsWaiting(db, userRef, activityType, dids)
  {
    var f := Filter(userRef, activityType);
    forall x ensures Waits(db, x, userRef, activityType) <==> x in db.deliveries && Selects(f, db.deliveries[x]) {
    }
    if Candidates(db, f, dids) {
      forall x ensures x in dids <==> Waits(db, x, userRef, activityType) {
        if x in dids {
          var i :| 0 <= i < |dids| && dids[i] == x;
        }
      }
    }
    if ListsWaiting(db, userRef, activityType, dids) {
      forall i | 0 <= i < |dids| ensures dids[i] in db.deliveries && Selects(f, db.deliveries[dids[i]]) {
        assert dids[i] in dids;
        assert Waits(db, dids[i], userRef, activityType);
      }
    }
  }

  // ----- The counters -----

  /** The listed deliveries that were waiting and end with this status. */
  function EndedAs(db: Db, d: Db, dids: seq<string>, s: DeliveryStatus): set<string> {
    set x | x in dids && x in db.deliveries && db.deliveries[x].status == UNMATCHED && x in d.deliveries && d.deliveries[x].status == s
  }

  /** The listed deliveries that were gone or no longer waiting. */
  function LeftAlone(db: Db, dids: seq<string>): set<string> {
    set x | x in dids && (x !in db.deliveries || db.deliveries[x].status != UNMATCHED)
  }

  ghost predicate Counted(db: Db, d: Db, dids: seq<string>, before: Counts, after: Counts) {
    && after.processed == before.processed + |EndedAs(db, d, dids, PROCESSED)|
    && after.stillUnmatched == before.stillUnmatched + |EndedAs(db, d, dids, UNMATCHED)|
    && after.rejected == before.rejected + |EndedAs(db, d, dids, REJECTED)|
    && after.skipped == before.skipped + |LeftAlone(db, dids)|
  }

  lemma SkippedCount(db: Db, d: Db, did: string, rest: seq<string>)
    requires did !in rest && (did !in db.deliveries || db.deliveries[did].status != UNMATCHED)
    ensures forall s :: EndedAs(db, d, [did] + rest, s) == EndedAs(db, d, rest, s)
    ensures |LeftAlone(db, [did] + rest)| == |LeftAlone(db, rest)| + 1
  {
    forall s ensures EndedAs(db, d, [did] + rest, s) == EndedAs(db, d, rest, s) {
      assert forall x :: x in [did] + rest <==> x == did || x in rest;
    }
    assert LeftAlone(db, [did] + rest) == LeftAlone(db, rest) + {did};
  }

  lemma ClaimedCount(db: Db, mid: Db, d: Db, did: string, rest: seq<string>, s: DeliveryStatus)
    requires OnlyDelivery(db, mid, did) && OnlyListed(mid, d, rest) && did !in rest
    requires db.deliveries[did].status == UNMATCHED
    ensures |EndedAs(db, d, [did] + rest, s)| == |EndedAs(mid, d, rest, s)| + (if mid.deliveries[did].status == s then 1 else 0)
    ensures LeftAlone(db, [did] + rest) == LeftAlone(mid, rest)
  {
    hide SameDelivery;
    var all := [did] + rest;
    assert forall x :: x in all <==> x == did || x in rest;
    assert d.deliveries[did] == mid.deliveries[did];
    if mid.deliveries[did].status == s {
      assert EndedAs(db, d, all, s) == EndedAs(mid, d, rest, s) + {did};
    } else {
      assert EndedAs(db, d, all, s) == EndedAs(mid, d, rest, s);
    }
  }

  lemma {:induction false} ReplayCounts(db: Db, dids: seq<string>, c: Counts, clock: string -> int, ids: string -> string)
    requires Distinct(dids) && Replay(db, dids, c, clock, ids).1.Ok?
    ensures var (d, r) := Replay(db, dids, c, clock, ids); Counted(db, d, dids, c, r.value)
    decreases |dids|
  {
    hide Process, OnlyDelivery, OnlyListed, Update, EndedAs, LeftAlone;
    if dids == [] {
      NothingCounted(db);
    } else {
      var did, rest := dids[0], dids[1..];
      assert dids == [did] + rest && did !in rest;
      var (d, r) := Replay(db, dids, c, clock, ids);
      if did !in db.deliveries || db.deliveries[did].status != UNMATCHED {
        ReplayCounts(db, rest, c.(skipped := c.skipped + 1), clock, ids);
        SkippedCount(db, d, did, rest);
      } else {
        var (mid, outcome) := ReplayOne(db, did, clock(did), ids(did));
        ReplayedOne(db, did, clock(did), ids(did));
        ReplayedStatus(db, did, clock(did), ids(did));
        ReplayCounts(mid, rest, Count(c, outcome.value), clock, ids);
        ReplayKeepsCount(mid, rest, Count(c, outcome.value), clock, ids);
        ClaimedCount(db, mid, d, did, rest, PROCESSED);
        ClaimedCount(db, mid, d, did, rest, UNMATCHED);
        ClaimedCount(db, mid, d, did, rest, REJECTED);
      }
    }
  }

  lemma NothingCounted(db: Db)
    ensures forall s :: EndedAs(db, db, [], s) == {}
    ensures LeftAlone(db, []) == {}
  {
  }

  lemma ReplayedStatus(db: Db, did: string, now: int, eid: string)
    requires did in db.deliveries && ReplayOne(db, did, now, eid).1.Ok?
    ensures var (d, r) := ReplayOne(db, did, now, eid);
      did in d.deliveries && d.deliveries[did].status == match r.value
        case Processed(_, _, _, _) => PROCESSED
        case Parked(_) => UNMATCHED
        case Rejected => REJECTED
  {
    hide Process, OnlyDelivery, Alter;
    ProcessTouchesOne(Update(db, did, Reclaim), did, now, eid);
    DeliveryStands(Update(db, did, Reclaim), ReplayOne(db, did, now, eid).0, did);
  }

  /** What a backfill that returns has counted: how many of the listed deliveries were waiting and are now PROCESSED, are
      UNMATCHED again, and are REJECTED, and how many were gone or no longer waiting. */
  lemma BackfillCounts(db: Db, f: Filter, dids: seq<string>, clock: string -> int, ids: string -> string)
    requires Distinct(dids) && Backfill(db, f, dids, clock, ids).1.Ok?
    ensures var (d, r) := Backfill(db, f, dids, clock, ids);
      && r.value.examined == |dids|
      && r.value.processed == |EndedAs(db, d, dids, PROCESSED)|
      && r.value.stillUnmatched == |EndedAs(db, d, dids, UNMATCHED)|
      && r.value.rejected == |EndedAs(db, d, dids, REJECTED)|
      && r.value.skipped == |LeftAlone(db, dids)|
  {
    hide Replay, EndedAs, LeftAlone, OnlyListed, Terminal;
    ReplayKeepsCount(db, dids, Counts(|dids|, 0, 0, 0, 0), clock, ids);
    ReplayCounts(db, dids, Counts(|dids|, 0, 0, 0, 0), clock, ids);
  }

  lemma ProcessNeedsNoFilter(db: Db, did: string, now: int, eid: string)
    ensures Process(db, did, now, eid).1 != Err(FilterRequired)
  {
    hide Fresh, Acceptable, ResolveRule, FindKey, HasId, HasReversal, ReferencesExist, RowChecks, UserExists;
  }

  lemma {:induction false} ReplayNeedsNoFilter(db: Db, dids: seq<string>, c: Counts, clock: string -> int, ids: string -> string)
    ensures Replay(db, dids, c, clock, ids).1 != Err(FilterRequired)
    decreases |dids|
  {
    hide Process;
    if dids != [] {
      if dids[0] !in db.deliveries || db.deliveries[dids[0]].status != UNMATCHED {
        ReplayNeedsNoFilter(db, dids[1..], c.(skipped := c.skipped + 1), clock, ids);
      } else {
        var (mid, r) := Process(Update(db, dids[0], Reclaim), dids[0], clock(dids[0]), ids(dids[0]));
        ProcessNeedsNoFilter(Update(db, dids[0], Reclaim), dids[0], clock(dids[0]), ids(dids[0]));
        if r.Ok? {
          ReplayNeedsNoFilter(mid, dids[1..], Count(c, r.value), clock, ids);
        }
      }
    }
  }

  /** A backfill without a filter is refused as such, and no other is. */
  lemma FilterIsRequired(db: Db, userRef: Option<string>, activityType: Option<string>, dids: seq<string>, clock: string -> int, ids: string -> string)
    ensures Backfill(db, Filter(userRef, activityType), dids, clock, ids).1 == Err(FilterRequired) <==> userRef == None && activityType == None
  {
    ReplayNeedsNoFilter(db, dids, Counts(|dids|, 0, 0, 0, 0), clock, ids);
    hide Replay;
  }

  /** A backfill that selects an event priced at nothing or less fails with the constraint its credit breaks. */
  lemma {:induction false} ReplayErrs(db: Db, dids: seq<string>, c: Counts, clock: string -> int, ids: string -> string)
    requires Valid(db) && Distinct(dids) && NewIds(db, dids, ids)
    ensures var r := Replay(db, dids, c, clock, ids).1; r.Err? ==> r.error == CheckViolation
    decreases |dids|
  {
    hide Valid, Evolves, CreditedFor, Process, HasId, NewIds;
    if dids != [] {
      var did, rest := dids[0], dids[1..];
      assert dids == [did] + rest && did !in rest;
      IdsOfRest(db, did, rest, ids);
      if did !in db.deliveries || db.deliveries[did].status != UNMATCHED {
        ReplayErrs(db, rest, c.(skipped := c.skipped + 1), clock, ids);
      } else {
        MarkStepKeepsValid(db, did, Reclaim);
        ProcessErrs(Update(db, did, Reclaim), did, clock(did), ids(did));
        var (mid, r) := ReplayOne(db, did, clock(did), ids(did));
        if r.Ok? {
          RestHasNewIds(db, did, rest, clock(did), ids);
          ReplayErrs(mid, rest, Count(c, r.value), clock, ids);
        }
      }
    }
  }

  lemma IdsOfRest(db: Db, did: string, rest: seq<string>, ids: string -> string)
    requires NewIds(db, [did] + rest, ids)
    ensures NewIds(db, rest, ids) && !HasId(db.ledger, ids(did))
  {
    hide HasId;
    assert forall x :: x in rest ==> x in [did] + rest;
    assert did in [did] + rest;
  }

  // ----- The rows -----

  /** How a claimed delivery's row may end: credited, rejected, or parked for the reason that holds now; only a parked row
      keeps a reason, a well-formed event's user and type are filled in, and what arrived is left as it was. */
  predicate EndsWell(db: Db, a: Delivery, b: Delivery) {
    var filed := if WellFormed(a.body) then a.(userRef := Some(a.body.userRef), activityType := Some(a.body.activityType)) else a;
    || b == filed.(status := PROCESSED, reason := None)
    || b == filed.(status := REJECTED, reason := None)
    || (b == filed.(status := UNMATCHED, reason := Some(UNKNOWN_USER)) && a.body.Event? && a.body.userRef !in db.users)
    || (b == filed.(status := UNMATCHED, reason := Some(NO_RULE)) && a.body.Event? && a.body.userRef in db.users)
  }

  lemma ClaimedRow(db: Db, did: string, now: int, eid: string)
    requires did in db.deliveries && ReplayOne(db, did, now, eid).1.Ok?
    ensures var d := ReplayOne(db, did, now, eid).0;
      did in d.deliveries && EndsWell(db, db.deliveries[did], d.deliveries[did]) && d.users == db.users
  {
    ProcessWrites(Update(db, did, Reclaim), did, now, eid);
    ProcessTouchesOne(Update(db, did, Reclaim), did, now, eid);
    ParkedFor(Update(db, did, Reclaim), did, now, eid);
    hide Process, WellFormed;
  }

  lemma ParkedFor(db: Db, did: string, now: int, eid: string)
    ensures did in db.deliveries && Process(db, did, now, eid).1.Ok? && Process(db, did, now, eid).1.value.Parked? ==>
      db.deliveries[did].body.Event?
      && (Process(db, did, now, eid).1.value.reason == UNKNOWN_USER <==> db.deliveries[did].body.userRef !in db.users)
  {
    hide Fresh, ResolveRule, Append;
  }

  /** Every delivery a backfill claimed ends so. */
  lemma {:induction false} ClaimedRowsEndWell(db: Db, dids: seq<string>, c: Counts, clock: string -> int, ids: string -> string)
    requires Distinct(dids) && Replay(db, dids, c, clock, ids).1.Ok?
    ensures var d := Replay(db, dids, c, clock, ids).0;
      && d.users == db.users
      && forall x :: x in dids && x in db.deliveries && db.deliveries[x].status == UNMATCHED ==>
           x in d.deliveries && EndsWell(db, db.deliveries[x], d.deliveries[x])
    decreases |dids|
  {
    hide Process, OnlyDelivery, OnlyListed, Update, EndsWell;
    if dids != [] {
      var did, rest := dids[0], dids[1..];
      assert dids == [did] + rest && did !in rest;
      if did !in db.deliveries || db.deliveries[did].status != UNMATCHED {
        ClaimedRowsEndWell(db, rest, c.(skipped := c.skipped + 1), clock, ids);
      } else {
        var (mid, outcome) := ReplayOne(db, did, clock(did), ids(did));
        ReplayedOne(db, did, clock(did), ids(did));
        ClaimedRow(db, did, clock(did), ids(did));
        RestStaysClaimed(db, mid, did, rest);
        ClaimedRowsEndWell(mid, rest, Count(c, outcome.value), clock, ids);
        ReplayKeepsCount(mid, rest, Count(c, outcome.value), clock, ids);
        ListedExtends(db, mid, Replay(mid, rest, Count(c, outcome.value), clock, ids).0, did, rest);
        ListedKeys(mid, Replay(mid, rest, Count(c, outcome.value), clock, ids).0, rest);
        SameEnds(db, mid);
      }
    }
  }

  lemma SameEnds(db: Db, mid: Db)
    requires mid.users == db.users
    ensures forall a, b :: EndsWell(mid, a, b) <==> EndsWell(db, a, b)
  {
  }
}
