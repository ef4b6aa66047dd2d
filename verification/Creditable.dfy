/** Exactly when an event's key can still be credited, by requests and backfills at clocks that do not go back. */
module Creditable {
  import opened Schema
  import opened Earning
  import opened Ledger
  import opened Redeeming
  import opened Webhook
  import opened Atoms
  import opened System
  import opened Reachable
  import opened Honest
  import opened Filed
  import opened Ingestion
  import opened Parking
  import opened Calls

  // ----- The condition -----

  /** Both are parked under one user and one activity type, so that every filter selecting one selects the other,
      and `x` is priced at nothing or less: while it is accepted, no backfill that claims `did` goes through. */
  predicate Blocks(db: Db, x: string, did: string) {
    && x in db.deliveries && did in db.deliveries
    && db.deliveries[x].status == UNMATCHED
    && db.deliveries[x].userRef == db.deliveries[did].userRef
    && db.deliveries[x].activityType == db.deliveries[did].activityType
    && Acceptable(db.deliveries[x].body) && Worthless(db, db.deliveries[x].body)
  }

  /** An instant at which the delivery is accepted and nothing that blocks it is. */
  ghost predicate Clear(db: Db, did: string, now: int)
    requires did in db.deliveries
  {
    Live(db.deliveries[did], now) && forall x :: Blocks(db, x, did) ==> !Live(db.deliveries[x], now)
  }

  /** An instant at which one delivery is accepted and another is not. */
  predicate Outlasts(a: Delivery, b: Delivery, now: int) {
    Live(a, now) && !Live(b, now)
  }

  /** A backfill can get the parked delivery out. While its user is unknown, a backfill made when a blocking
      delivery is out of its window rejects that delivery and parks this one again, so they can be shed one by
      one; once the user is known a single instant has to be clear of them all. */
  ghost predicate Releasable(db: Db, did: string, from: int)
    requires did in db.deliveries && Acceptable(db.deliveries[did].body)
  {
    if db.deliveries[did].body.userRef in db.users then
      exists now :: from <= now && Clear(db, did, now)
    else
      forall x :: Blocks(db, x, did) ==> exists now :: from <= now && Outlasts(db.deliveries[did], db.deliveries[x], now)
  }

  /** What is stored holds an event that is not worthless and not too old, has not been rejected, and, if parked,
      can be released. */
  ghost predicate StillPayable(db: Db, did: string, from: int)
    requires did in db.deliveries
  {
    var d := db.deliveries[did];
    && Acceptable(d.body) && !Worthless(db, d.body)
    && from - d.body.occurredAt <= MAX_EVENT_AGE_MS
    && d.status != REJECTED
    && (d.status == UNMATCHED ==> Releasable(db, did, from))
  }

  /** With nothing in the way, a parked delivery is as payable as one that waits. */
  lemma UnblockedIsReleasable(db: Db, did: string, from: int)
    requires did in db.deliveries && forall x :: !Blocks(db, x, did)
    ensures StillPayable(db, did, from) <==>
      var d := db.deliveries[did];
      && Acceptable(d.body) && !Worthless(db, d.body)
      && from - d.body.occurredAt <= MAX_EVENT_AGE_MS && d.status != REJECTED
  {
    hide Blocks, Worthless;
    var body := db.deliveries[did].body;
    if Acceptable(body) && from - body.occurredAt <= MAX_EVENT_AGE_MS {
      assert Clear(db, did, if from <= body.occurredAt then body.occurredAt else from);
    }
  }

  ghost predicate HopeFor(db: Db, did: string, from: int)
    requires did in db.deliveries
  {
    KeyCredited(db, db.deliveries[did].partner, db.deliveries[did].key) || StillPayable(db, did, from)
  }

  /** Nothing is stored under the key, or what is stored has been credited or is still payable. */
  ghost predicate StillOpen(db: Db, partner: string, key: string, from: int) {
    var stored := FindDelivery(db, partner, key);
    if stored.Some? then HopeFor(db, stored.value, from) else key != ""
  }

  ghost predicate CanBeCredited(db: Db, partner: string, key: string, from: int) {
    exists calls :: Chronicle(db, calls, from) && KeyCredited(Finally(db, calls), partner, key)
  }

  // ----- No call brings hope back -----

  /** The delivery as it was, but for the attempts counted. */
  predicate SameRow(a: Delivery, b: Delivery) {
    b == a.(attempts := b.attempts)
  }

  ghost predicate BlockersRemain(db: Db, d: Db, did: string) {
    forall x :: Blocks(db, x, did) ==> Blocks(d, x, did) && d.deliveries[x].body == db.deliveries[x].body
  }

  lemma PayableBackwards(db: Db, d: Db, did: string, from: int, later: int)
    requires from <= later && did in db.deliveries && did in d.deliveries
    requires SameRow(db.deliveries[did], d.deliveries[did])
    requires forall ref :: ref in db.users ==> ref in d.users
    requires Worthless(db, db.deliveries[did].body) ==> Worthless(d, db.deliveries[did].body)
    requires db.deliveries[did].status == UNMATCHED ==> BlockersRemain(db, d, did)
    requires StillPayable(d, did, later)
    ensures StillPayable(db, did, from)
  {
    hide Worthless, Live;
    var row := db.deliveries[did];
    assert d.deliveries[did].body == row.body;
    LiveAlike(row, d.deliveries[did]);
    if row.status == UNMATCHED {
      forall x, now | Blocks(db, x, did) ensures Live(d.deliveries[x], now) <==> Live(db.deliveries[x], now) {
        LiveAlike(db.deliveries[x], d.deliveries[x]);
      }
      if row.body.userRef in db.users {
        var now :| later <= now && Clear(d, did, now);
        assert Clear(db, did, now);
      } else if row.body.userRef in d.users {
        var now :| later <= now && Clear(d, did, now);
        forall x | Blocks(db, x, did) ensures Outlasts(row, db.deliveries[x], now) {
          assert Blocks(d, x, did);
        }
      } else {
        forall x | Blocks(db, x, did) ensures exists now :: from <= now && Outlasts(row, db.deliveries[x], now) {
          assert Blocks(d, x, did);
          var now :| later <= now && Outlasts(d.deliveries[did], d.deliveries[x], now);
          assert Outlasts(row, db.deliveries[x], now);
        }
      }
    }
  }

  lemma LiveAlike(a: Delivery, b: Delivery)
    requires a.body == b.body
    ensures forall now :: Live(a, now) <==> Live(b, now)
  {
  }

  lemma WorthlessStays(db: Db, d: Db, body: Body)
    requires Evolves(db, d) && Valid(d) && Worthless(db, body)
    ensures Worthless(d, body)
  {
    hide LedgerState, RedemptionInv, DeliveryInv, NoClash, LaterRedemption, StockConserved, SameDelivery;
    assert d.rules == db.rules + d.rules[|db.rules|..];
    AddingRulesKeepsPrices(db.rules, d.rules[|db.rules|..], body.activityType, body.occurredAt);
  }

  lemma UsersStay(db: Db, d: Db)
    requires Evolves(db, d)
    ensures forall ref :: ref in db.users ==> ref in d.users
    ensures db.ledger <= d.ledger
  {
    hide LaterRedemption, StockConserved, SameDelivery;
  }

  /** Calls that leave the deliveries as they are. */
  lemma QuietCallFlowsBack(db: Db, d: Db, did: string, from: int, later: int)
    requires from <= later && Evolves(db, d) && Valid(d) && d.deliveries == db.deliveries && did in db.deliveries
    requires forall i :: |db.ledger| <= i < |d.ledger| ==> d.ledger[i].kind != EARN
    requires HopeFor(d, did, later)
    ensures HopeFor(db, did, from)
  {
    hide Valid, Evolves, Worthless, StillPayable, Acceptable;
    UsersStay(db, d);
    var partner, key := db.deliveries[did].partner, db.deliveries[did].key;
    if KeyCredited(d, partner, key) {
      var i :| 0 <= i < |d.ledger| && HoldsKey(d.ledger[i], PARTNER_PREFIX + partner, Some(key));
      RowIsExplained(d, i, partner, key);
      assert db.ledger[i] == d.ledger[i];
    } else {
      forall body | Worthless(db, body) ensures Worthless(d, body) {
        WorthlessStays(db, d, body);
      }
      PayableBackwards(db, d, did, from, later);
    }
  }

  lemma EditIsQuiet(db: Db, e: Edit)
    ensures Edited(db, e).deliveries == db.deliveries && Edited(db, e).ledger == db.ledger
  {
  }

  // ----- A request -----

  lemma CaptureLeaves(db: Db, partner: string, body: Body, did: string, at: int)
    requires Valid(db) && Capture(db, partner, body, did, at).1.Ok?
    ensures var (d, r) := Capture(db, partner, body, did, at);
      && d == db.(deliveries := d.deliveries)
      && (forall x :: x in db.deliveries ==> x in d.deliveries && SameRow(db.deliveries[x], d.deliveries[x]))
      && (forall x :: x in db.deliveries ==>
            (x == r.value.deliveryId <==> Received(db.deliveries[x], partner, ResolveKey(body))))
      && (r.value.deliveryId in db.deliveries ==> r.value.duplicate && r.value.status == db.deliveries[r.value.deliveryId].status)
      && r.value.deliveryId in d.deliveries
  {
    hide LedgerState, RedemptionInv, RulesInv, KeysResolved, EarnsExplained, ProcessedCredited, FindDelivery;
    var seen := FindDelivery(db, partner, ResolveKey(body));
    if seen.Some? {
      forall x | x in db.deliveries && Received(db.deliveries[x], partner, ResolveKey(body)) ensures x == seen.value {
        OneHolder(db, x, seen.value);
      }
    }
  }

  /** The request did not process this delivery. */
  predicate Bystander(d: Delivery, partner: string, key: string) {
    !Received(d, partner, key) || IsTerminal(d.status)
  }

  lemma PostLeavesBystanders(db: Db, partner: string, body: Body, id: string, eid: string, now: int, outage: bool, did: string)
    requires Valid(db) && did in db.deliveries && Bystander(db.deliveries[did], partner, ResolveKey(body))
    ensures var d := PostWebhook(db, partner, body, id, eid, now, outage).0;
      did in d.deliveries && SameRow(db.deliveries[did], d.deliveries[did])
  {
    hide Valid, Capture, Process, Alter;
    if Capture(db, partner, body, id, now).1.Ok? {
      CaptureLeaves(db, partner, body, id, now);
      var (captured, c) := Capture(db, partner, body, id, now);
      if Process(captured, c.value.deliveryId, now, eid).1.Ok? {
        ProcessTouchesOne(captured, c.value.deliveryId, now, eid);
      }
    }
  }

  lemma PostKeepsUsersAndRules(db: Db, partner: string, body: Body, id: string, eid: string, now: int, outage: bool)
    requires Valid(db)
    ensures var d := PostWebhook(db, partner, body, id, eid, now, outage).0; d.users == db.users && d.rules == db.rules
  {
    hide Valid, Capture, Process, Alter;
    if Capture(db, partner, body, id, now).1.Ok? {
      CaptureLeaves(db, partner, body, id, now);
      var (captured, c) := Capture(db, partner, body, id, now);
      if Process(captured, c.value.deliveryId, now, eid).1.Ok? {
        ProcessTouchesOne(captured, c.value.deliveryId, now, eid);
      }
    }
  }

  lemma SameLedgerSameCredits(db: Db, d: Db)
    requires d.ledger == db.ledger
    ensures forall partner, key :: KeyCredited(d, partner, key) <==> KeyCredited(db, partner, key)
  {
  }

  /** A request that credits the key of a stored delivery processes that very delivery, which is then live, not
      worthless, and in no terminal status. */
  lemma PostCreditsOwn(db: Db, partner: string, body: Body, id: string, eid: string, now: int, outage: bool, did: string)
    requires Valid(db) && did in db.deliveries
    requires var d := PostWebhook(db, partner, body, id, eid, now, outage).0;
      var row := db.deliveries[did];
      KeyCredited(d, row.partner, row.key) && !KeyCredited(db, row.partner, row.key)
    ensures var row := db.deliveries[did];
      !Bystander(row, partner, ResolveKey(body)) && Live(row, now) && !Worthless(db, row.body)
  {
    hide Valid, Evolves, Capture, Process, Alter, KeyCredited, Worthless, Priceable, Live, FindDelivery;
    var row := db.deliveries[did];
    CaptureLeaves(db, partner, body, id, now);
    var (captured, c) := Capture(db, partner, body, id, now);
    SameLedgerSameCredits(db, captured);
    SameLedgerSameCredits(db, Update(captured, c.value.deliveryId, Fail));
    var at := c.value.deliveryId;
    assert PostWebhook(db, partner, body, id, eid, now, outage).0 == Process(captured, at, now, eid).0;
    CaptureKeepsValid(db, partner, body, id, now);
    ProcessCreditsOwn(captured, at, now, eid, row.partner, row.key);
    OneHolder(captured, at, did);
    ProcessPlaces(captured, at, now, eid);
    SameWorth(db, captured, row.body);
    LiveAlike(row, captured.deliveries[did]);
  }

  lemma SameWorth(db: Db, d: Db, body: Body)
    requires d.rules == db.rules
    ensures Worthless(d, body) <==> Worthless(db, body)
  {
  }

  lemma PostBodyStays(db: Db, partner: string, body: Body, id: string, eid: string, now: int, outage: bool, did: string)
    requires Valid(db) && did in db.deliveries
    ensures var d := PostWebhook(db, partner, body, id, eid, now, outage).0;
      did in d.deliveries && SameDelivery(db.deliveries[did], d.deliveries[did])
  {
    hide Valid, PostWebhook;
    PostWebhookKeepsValid(db, partner, body, id, eid, now, outage);
    DeliveryIsKept(db, PostWebhook(db, partner, body, id, eid, now, outage).0, did);
  }

  lemma DeliveryIsKept(db: Db, d: Db, did: string)
    requires Evolves(db, d) && did in db.deliveries
    ensures did in d.deliveries && SameDelivery(db.deliveries[did], d.deliveries[did])
  {
    hide LaterRedemption, StockConserved;
  }

  lemma PostKeepsBlockers(db: Db, partner: string, body: Body, id: string, eid: string, now: int, outage: bool, did: string)
    requires Valid(db) && did in db.deliveries && Bystander(db.deliveries[did], partner, ResolveKey(body))
    ensures BlockersRemain(db, PostWebhook(db, partner, body, id, eid, now, outage).0, did)
  {
    hide Valid, PostWebhook, Acceptable, Worthless;
    var d := PostWebhook(db, partner, body, id, eid, now, outage).0;
    PostKeepsUsersAndRules(db, partner, body, id, eid, now, outage);
    PostLeavesBystanders(db, partner, body, id, eid, now, outage, did);
    forall x | Blocks(db, x, did) ensures Blocks(d, x, did) && d.deliveries[x].body == db.deliveries[x].body {
      PostLeavesBystanders(db, partner, body, id, eid, now, outage, x);
      SameWorth(db, d, db.deliveries[x].body);
    }
  }

  lemma PostFlowsBack(db: Db, partner: string, body: Body, id: string, eid: string, now: int, outage: bool, did: string, from: int)
    requires Valid(db) && did in db.deliveries && from <= now
    requires var d := PostWebhook(db, partner, body, id, eid, now, outage).0; did in d.deliveries && HopeFor(d, did, now)
    ensures HopeFor(db, did, from)
  {
    hide Valid, PostWebhook, KeyCredited, StillPayable, Worthless, BlockersRemain;
    var d := PostWebhook(db, partner, body, id, eid, now, outage).0;
    var row := db.deliveries[did];
    PostBodyStays(db, partner, body, id, eid, now, outage, did);
    PostKeepsUsersAndRules(db, partner, body, id, eid, now, outage);
    SameWorth(db, d, row.body);
    if KeyCredited(db, row.partner, row.key) {
    } else if KeyCredited(d, row.partner, row.key) {
      PostCreditsOwn(db, partner, body, id, eid, now, outage, did);
      LiveIsPayable(db, did, now, from);
    } else if Bystander(row, partner, ResolveKey(body)) {
      PostLeavesBystanders(db, partner, body, id, eid, now, outage, did);
      PostKeepsBlockers(db, partner, body, id, eid, now, outage, did);
      PayableBackwards(db, d, did, from, now);
    } else {
      WaitingIsPayable(db, d, did, now, from);
    }
  }

  lemma LiveIsPayable(db: Db, did: string, now: int, from: int)
    requires did in db.deliveries && !IsTerminal(db.deliveries[did].status) && from <= now
    requires Live(db.deliveries[did], now) && !Worthless(db, db.deliveries[did].body)
    ensures StillPayable(db, did, from)
  {
  }

  lemma WaitingIsPayable(db: Db, d: Db, did: string, now: int, from: int)
    requires did in db.deliveries && did in d.deliveries && SameDelivery(db.deliveries[did], d.deliveries[did])
    requires !IsTerminal(db.deliveries[did].status) && from <= now && StillPayable(d, did, now)
    requires Worthless(d, db.deliveries[did].body) <==> Worthless(db, db.deliveries[did].body)
    ensures StillPayable(db, did, from)
  {
    hide Worthless, Releasable;
  }

  // ----- A backfill -----

  /** What a backfill that went through, read at one instant, did to the deliveries. */
  ghost predicate SweptAt(db: Db, d: Db, f: Filter, now: int) {
    && Sound(db) && Sound(d)
    && d.users == db.users && d.rules == db.rules && d.deliveries.Keys == db.deliveries.Keys
    && (forall x :: x in db.deliveries ==> x in d.deliveries && SameDelivery(db.deliveries[x], d.deliveries[x]))
    && (forall x :: x in db.deliveries && !Selects(f, db.deliveries[x]) ==> d.deliveries[x] == db.deliveries[x])
    && (forall x :: x in db.deliveries && Selects(f, db.deliveries[x]) ==> Placed(db, d, x, now) && !Aborts(db, x, now))
  }

  lemma BackfillSweeps(db: Db, f: Filter, dids: seq<string>, ids: string -> string, now: int)
    requires Sound(db) && Candidates(db, f, dids) && Backfill(db, f, dids, Always(now), ids).1.Ok?
    ensures SweptAt(db, Backfill(db, f, dids, Always(now), ids).0, f, now)
  {
    BackfillKeepsSound(db, f, dids, Always(now), ids);
    hide Sound, Replay, Placed, Aborts, Selects, Evolves, Candidates, Accounts, SameDelivery, SweptAt, Distinct, Always;
    CandidatesAreSelected(db, f, dids);
    var c := Counts(|dids|, 0, 0, 0, 0);
    ReplayKeepsCount(db, dids, c, Always(now), ids);
    var (d, r) := Replay(db, dids, c, Always(now), ids);
    AccountedRows(db, d, dids, c, r.value);
    ListedAreSwept(db, dids, c, ids, now);
    SweptByList(db, d, f, dids, now);
  }

  lemma SweptByList(db: Db, d: Db, f: Filter, dids: seq<string>, now: int)
    requires Sound(db) && Sound(d) && d.users == db.users && d.rules == db.rules && d.deliveries.Keys == db.deliveries.Keys
    requires forall x :: x in dids <==> x in db.deliveries && Selects(f, db.deliveries[x])
    requires forall x :: x in db.deliveries ==> x in d.deliveries && SameDelivery(db.deliveries[x], d.deliveries[x])
    requires forall x :: x in db.deliveries && x !in dids ==> d.deliveries[x] == db.deliveries[x]
    requires forall x :: x in dids ==> Placed(db, d, x, now) && !Aborts(db, x, now)
    ensures SweptAt(db, d, f, now)
  {
    hide Sound, Placed, Aborts, Selects, SameDelivery;
  }

  lemma ListedAreSwept(db: Db, dids: seq<string>, c: Counts, ids: string -> string, now: int)
    requires Distinct(dids) && Replay(db, dids, c, Always(now), ids).1.Ok?
    requires forall x :: x in dids ==> x in db.deliveries && db.deliveries[x].status == UNMATCHED
    ensures var d := Replay(db, dids, c, Always(now), ids).0;
      forall x :: x in dids ==> Placed(db, d, x, now) && !Aborts(db, x, now)
  {
    hide Replay, Placed, Aborts;
    ReplayPlaces(db, dids, c, Always(now), ids);
    ReplayGoesThroughExactly(db, dids, c, Always(now), ids);
    forall x | x in dids ensures Placed(db, Replay(db, dids, c, Always(now), ids).0, x, now) && !Aborts(db, x, now) {
      assert Always(now)(x) == now;
    }
  }

  lemma CandidatesAreSelected(db: Db, f: Filter, dids: seq<string>)
    requires Candidates(db, f, dids)
    ensures Distinct(dids)
    ensures forall x :: x in dids <==> x in db.deliveries && Selects(f, db.deliveries[x])
    ensures forall x :: x in dids ==> db.deliveries[x].status == UNMATCHED
  {
  }

  lemma AccountedRows(db: Db, d: Db, dids: seq<string>, c: Counts, after: Counts)
    requires Accounts(db, d, dids, c, after)
    ensures d.users == db.users && d.rules == db.rules && d.deliveries.Keys == db.deliveries.Keys
    ensures forall x :: x in db.deliveries ==> x in d.deliveries && SameDelivery(db.deliveries[x], d.deliveries[x])
    ensures forall x :: x in db.deliveries && x !in dids ==> d.deliveries[x] == db.deliveries[x]
  {
    hide SameDelivery;
  }

  lemma SelectedIsParked(f: Filter, d: Delivery)
    requires Selects(f, d)
    ensures d.status == UNMATCHED
  {
  }

  lemma SweepCreditsOwn(db: Db, f: Filter, dids: seq<string>, ids: string -> string, now: int, did: string)
    requires Sound(db) && Candidates(db, f, dids) && Backfill(db, f, dids, Always(now), ids).1.Ok?
    requires did in db.deliveries && !KeyCredited(db, db.deliveries[did].partner, db.deliveries[did].key)
    requires var d := Backfill(db, f, dids, Always(now), ids).0;
      KeyCredited(d, db.deliveries[did].partner, db.deliveries[did].key)
    ensures var d := Backfill(db, f, dids, Always(now), ids).0;
      Selects(f, db.deliveries[did]) && did in d.deliveries && d.deliveries[did].status == PROCESSED
  {
    hide Valid, RowsFiled, Replay, Selects, KeyCredited;
    var partner, key := db.deliveries[did].partner, db.deliveries[did].key;
    ReplayCreditsOwn(db, dids, Counts(|dids|, 0, 0, 0, 0), Always(now), ids, partner, key);
    var d := Backfill(db, f, dids, Always(now), ids).0;
    var x :| x in dids && x in db.deliveries && Received(db.deliveries[x], partner, key)
      && db.deliveries[x].status == UNMATCHED && x in d.deliveries && d.deliveries[x].status == PROCESSED;
    OneHolder(db, x, did);
  }

  /** A blocker of a selected delivery is selected with it, and is of the same user. */
  lemma BlockersAreSelected(db: Db, f: Filter, x: string, did: string)
    requires RowsFiled(db) && Blocks(db, x, did) && db.deliveries[did].status == UNMATCHED
    ensures Selects(f, db.deliveries[x]) <==> Selects(f, db.deliveries[did])
    ensures db.deliveries[x].body.Event? && db.deliveries[did].body.Event?
    ensures db.deliveries[x].body.userRef == db.deliveries[did].body.userRef
  {
    hide Acceptable, Worthless;
    assert Columned(db.deliveries[x]) && Columned(db.deliveries[did]);
    AcceptableIsEvent(db.deliveries[x].body);
    AcceptableIsEvent(db.deliveries[did].body);
  }

  lemma AcceptableIsEvent(body: Body)
    ensures Acceptable(body) ==> body.Event?
  {
  }

  lemma UnselectedFlowsBack(db: Db, d: Db, f: Filter, did: string, now: int, from: int)
    requires SweptAt(db, d, f, now) && from <= now
    requires did in db.deliveries && !Selects(f, db.deliveries[did]) && StillPayable(d, did, now)
    ensures StillPayable(db, did, from)
  {
    hide Valid, StillPayable, Placed, Aborts, Selects, Worthless, Acceptable;
    SameWorth(db, d, db.deliveries[did].body);
    if db.deliveries[did].status == UNMATCHED {
      forall x | Blocks(db, x, did) ensures Blocks(d, x, did) && d.deliveries[x].body == db.deliveries[x].body {
        BlockersAreSelected(db, f, x, did);
        SameWorth(db, d, db.deliveries[x].body);
      }
    }
    PayableBackwards(db, d, did, from, now);
  }

  /** A blocker selected by a backfill that went through was out of its window, or its user is unknown and it was
      parked again. */
  lemma BlockerSwept(db: Db, d: Db, f: Filter, x: string, did: string, now: int)
    requires SweptAt(db, d, f, now) && Blocks(db, x, did) && did in db.deliveries && Selects(f, db.deliveries[did])
    requires Live(db.deliveries[x], now)
    ensures db.deliveries[did].body.Event? && db.deliveries[did].body.userRef !in db.users
    ensures x in d.deliveries && d.deliveries[x].status == UNMATCHED
  {
    hide Valid, Live, Selects;
    SelectedIsParked(f, db.deliveries[did]);
    BlockersAreSelected(db, f, x, did);
    assert Placed(db, d, x, now) && !Aborts(db, x, now);
  }

  lemma ColumnsStay(db: Db, d: Db, x: string)
    requires RowsFiled(db) && RowsFiled(d) && x in db.deliveries && x in d.deliveries
    requires SameDelivery(db.deliveries[x], d.deliveries[x])
    requires db.deliveries[x].status == UNMATCHED && d.deliveries[x].status == UNMATCHED
    ensures d.deliveries[x].userRef == db.deliveries[x].userRef && d.deliveries[x].activityType == db.deliveries[x].activityType
  {
    assert Columned(db.deliveries[x]) && Columned(d.deliveries[x]);
  }

  lemma BlockerStays(db: Db, d: Db, f: Filter, x: string, did: string, now: int)
    requires SweptAt(db, d, f, now) && Blocks(db, x, did) && did in db.deliveries && Selects(f, db.deliveries[did])
    requires Live(db.deliveries[x], now) && did in d.deliveries && d.deliveries[did].status == UNMATCHED
    ensures Blocks(d, x, did) && d.deliveries[x].body == db.deliveries[x].body
  {
    BlockerSwept(db, d, f, x, did, now);
    hide Valid, RowsFiled, Live, Selects, Placed, Aborts, Acceptable, Worthless;
    SelectedIsParked(f, db.deliveries[did]);
    ColumnsStay(db, d, x);
    ColumnsStay(db, d, did);
    SameWorth(db, d, db.deliveries[x].body);
  }

  /** The delivery was selected and got through its turn alive. */
  lemma SelectedFlowsBack(db: Db, d: Db, f: Filter, did: string, now: int, from: int)
    requires SweptAt(db, d, f, now) && from <= now
    requires did in db.deliveries && Selects(f, db.deliveries[did]) && did in d.deliveries
    requires Live(db.deliveries[did], now) && !Worthless(db, db.deliveries[did].body)
    requires d.deliveries[did].status == UNMATCHED ==> StillPayable(d, did, now)
    ensures StillPayable(db, did, from)
  {
    hide Sound, Worthless, Selects, Aborts;
    SelectedIsParked(f, db.deliveries[did]);
    LiveAlike(db.deliveries[did], d.deliveries[did]);
    var row := db.deliveries[did];
    if row.body.userRef in db.users {
      forall x | Blocks(db, x, did) ensures !Live(db.deliveries[x], now) {
        if Live(db.deliveries[x], now) {
          BlockerSwept(db, d, f, x, did, now);
          assert false;
        }
      }
      assert Clear(db, did, now);
    } else {
      assert Placed(db, d, did, now);
      hide Live, Placed, Acceptable;
      forall x | Blocks(db, x, did) ensures exists at :: from <= at && Outlasts(row, db.deliveries[x], at) {
        BlockerOutlasted(db, d, f, x, did, now, from);
      }
    }
    hide Clear, Live;
  }

  lemma BlockerOutlasted(db: Db, d: Db, f: Filter, x: string, did: string, now: int, from: int)
    requires SweptAt(db, d, f, now) && from <= now && Blocks(db, x, did)
    requires did in db.deliveries && Selects(f, db.deliveries[did]) && did in d.deliveries
    requires Live(db.deliveries[did], now) && d.deliveries[did].status == UNMATCHED && StillPayable(d, did, now)
    requires db.deliveries[did].body.Event? && db.deliveries[did].body.userRef !in db.users
    ensures exists at :: from <= at && Outlasts(db.deliveries[did], db.deliveries[x], at)
  {
    hide Sound, Worthless, Selects, Aborts, Placed, Live;
    if Live(db.deliveries[x], now) {
      BlockerStays(db, d, f, x, did, now);
      assert Releasable(d, did, now);
      var at :| now <= at && Outlasts(d.deliveries[did], d.deliveries[x], at);
      LiveAlike(db.deliveries[did], d.deliveries[did]);
      LiveAlike(db.deliveries[x], d.deliveries[x]);
      assert Outlasts(db.deliveries[did], db.deliveries[x], at);
    } else {
      assert Outlasts(db.deliveries[did], db.deliveries[x], now);
    }
  }

  lemma SweepFlowsBack(db: Db, f: Filter, dids: seq<string>, ids: string -> string, now: int, did: string, from: int)
    requires Sound(db) && Candidates(db, f, dids) && from <= now && did in db.deliveries
    requires Backfill(db, f, dids, Always(now), ids).1.Ok?
    requires var d := Backfill(db, f, dids, Always(now), ids).0; did in d.deliveries && HopeFor(d, did, now)
    ensures HopeFor(db, did, from)
  {
    BackfillSweeps(db, f, dids, ids, now);
    hide Sound, Candidates, Backfill, KeyCredited, Selects, Worthless, Aborts, Releasable, Live, Priceable;
    var d := Backfill(db, f, dids, Always(now), ids).0;
    var row := db.deliveries[did];
    SameWorth(db, d, row.body);
    if KeyCredited(db, row.partner, row.key) {
    } else {
      if KeyCredited(d, row.partner, row.key) {
        SweepCreditsOwn(db, f, dids, ids, now, did);
      }
      if Selects(f, row) {
        assert Placed(db, d, did, now);
        SelectedFlowsBack(db, d, f, did, now, from);
      } else {
        UnselectedFlowsBack(db, d, f, did, now, from);
      }
    }
  }

  // ----- So hope was there all along -----

  lemma CallFlowsBack(db: Db, c: Stamped, did: string, from: int)
    requires Sound(db) && May(db, c.call) && from <= c.now && did in db.deliveries
    requires did in Leaves(db, c).deliveries && HopeFor(Leaves(db, c), did, c.now)
    ensures HopeFor(db, did, from)
  {
    CallKeepsSound(db, c);
    hide Valid, RowsFiled, Evolves, Candidates, Backfill, PostWebhook, Edited, MayEdit, KeyCredited, StillPayable;
    match c.call
    case Post(partner, body, id, eid, outage) => PostFlowsBack(db, partner, body, id, eid, c.now, outage, did, from);
    case Sweep(f, dids, ids) =>
      EvolvesReflexive(db);
      if Backfill(db, f, dids, Always(c.now), ids).1.Ok? {
        SweepFlowsBack(db, f, dids, ids, c.now, did, from);
      } else {
        QuietCallFlowsBack(db, db, did, from, c.now);
      }
    case Edits(e) =>
      EditIsQuiet(db, e);
      QuietCallFlowsBack(db, Edited(db, e), did, from, c.now);
    case Elsewhere(d) => QuietCallFlowsBack(db, d, did, from, c.now);
  }

  lemma {:induction false} HopeWasThere(db: Db, calls: seq<Stamped>, did: string, from: int)
    requires Sound(db) && Chronicle(db, calls, from) && did in db.deliveries
    requires KeyCredited(Finally(db, calls), db.deliveries[did].partner, db.deliveries[did].key)
    ensures HopeFor(db, did, from)
    decreases |calls|
  {
    hide Sound, May, Leaves, KeyCredited, StillPayable, Evolves;
    if calls != [] {
      var c := calls[0];
      CallKeepsSound(db, c);
      DeliveryIsKept(db, Leaves(db, c), did);
      HopeWasThere(Leaves(db, c), calls[1..], did, c.now);
      CallFlowsBack(db, c, did, from);
    }
  }
}
