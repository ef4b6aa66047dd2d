/** What a backfill does to each delivery it claims and to the ledger, and exactly when it goes through. */
module Parking {
  import opened Schema
  import opened Earning
  import opened Ledger
  import opened Redeeming
  import opened Webhook
  import opened Atoms
  import opened Ingestion

  // ----- A credited key belongs to the delivery stored under it -----

  ghost predicate KeyCredited(db: Db, partner: string, key: string) {
    exists i :: 0 <= i < |db.ledger| && HoldsKey(db.ledger[i], PARTNER_PREFIX + partner, Some(key))
  }

  lemma RowIsExplained(db: Db, i: nat, partner: string, key: string)
    requires Valid(db) && i < |db.ledger| && HoldsKey(db.ledger[i], PARTNER_PREFIX + partner, Some(key))
    ensures exists did :: did in db.deliveries && Received(db.deliveries[did], partner, key) && EarnedBy(db, db.ledger[i], db.deliveries[did])
    ensures db.ledger[i].delta > 0 && db.ledger[i].kind == EARN
  {
    hide RedemptionInv, RulesInv, ProcessedCredited, KeysResolved, DeliveriesUnique, EarnedBy, DistinctIds, DistinctKeys, UndoesEarlier;
    assert WellLabelled(db.ledger[i]);
    assert PARTNER_PREFIX <= PARTNER_PREFIX + partner;
    assert Explained(db, db.ledger[i]);
    var did :| did in db.deliveries && EarnedBy(db, db.ledger[i], db.deliveries[did]);
    SameSource(db, db.ledger[i], db.deliveries[did], partner);
  }

  lemma SameSource(db: Db, e: Entry, d: Delivery, partner: string)
    requires EarnedBy(db, e, d) && e.source == PARTNER_PREFIX + partner
    ensures d.partner == partner && e.eventId == Some(d.key)
  {
    hide Acceptable, PricedBy;
    assert (PARTNER_PREFIX + d.partner)[|PARTNER_PREFIX|..] == d.partner;
    assert (PARTNER_PREFIX + partner)[|PARTNER_PREFIX|..] == partner;
  }

  lemma ProcessedHoldsKey(db: Db, did: string)
    requires Valid(db) && did in db.deliveries && db.deliveries[did].status == PROCESSED
    ensures KeyCredited(db, db.deliveries[did].partner, db.deliveries[did].key)
  {
    hide LedgerState, RedemptionInv, RulesInv, KeysResolved, DeliveriesUnique, EarnsExplained, Acceptable, PricedBy;
    assert CreditedFor(db, db.deliveries[did]);
    var i :| 0 <= i < |db.ledger| && EarnedBy(db, db.ledger[i], db.deliveries[did]);
    assert HoldsKey(db.ledger[i], PARTNER_PREFIX + db.deliveries[did].partner, Some(db.deliveries[did].key));
  }

  lemma OneHolder(db: Db, a: string, b: string)
    requires Valid(db) && a in db.deliveries && b in db.deliveries
    requires Received(db.deliveries[a], db.deliveries[b].partner, db.deliveries[b].key)
    ensures a == b
  {
    hide LedgerState, RedemptionInv, RulesInv, KeysResolved, EarnsExplained, ProcessedCredited;
  }

  // ----- One delivery -----

  /** The event is accepted at this instant, whatever it is worth. */
  predicate Live(d: Delivery, now: int) {
    Acceptable(d.body) && Fresh(d.body.occurredAt, now)
  }

  /** Priced now, at nothing or less: crediting it violates a constraint of the ledger. */
  predicate Worthless(db: Db, body: Body) {
    body.Event? && RuleFor(db, body).Some? && RuleFor(db, body).value.points <= 0
  }

  /** Credited if it can be priced, parked if it cannot, rejected if it is not accepted now. */
  predicate Placed(db: Db, d: Db, did: string, now: int)
    requires did in db.deliveries
  {
    var body := db.deliveries[did].body;
    && did in d.deliveries
    && (d.deliveries[did].status == REJECTED <==> !Live(db.deliveries[did], now))
    && (d.deliveries[did].status == UNMATCHED <==> Live(db.deliveries[did], now) && !Priceable(db, body))
    && (d.deliveries[did].status == PROCESSED <==> Live(db.deliveries[did], now) && Priceable(db, body))
    && (d.deliveries[did].status == PROCESSED ==> !Worthless(db, body))
  }

  lemma ProcessPlaces(db: Db, did: string, now: int, eid: string)
    requires Process(db, did, now, eid).1.Ok?
    ensures Placed(db, Process(db, did, now, eid).0, did, now)
  {
    hide OnlyDelivery, Fresh, CreditDelivery, ResolveRule;
    ProcessTouchesOne(db, did, now, eid);
    DeliveryStands(db, Process(db, did, now, eid).0, did);
    var body := db.deliveries[did].body;
    if Live(db.deliveries[did], now) && Priceable(db, body) {
      var touched := Update(db, did, Touch(body.userRef, body.activityType));
      CreditIsProcessed(touched, did, CreditOf(touched, touched.deliveries[did]), eid, now);
      CreditIsPositive(touched, did, CreditOf(touched, touched.deliveries[did]), eid, now);
    }
  }

  lemma CreditIsPositive(db: Db, did: string, input: AppendInput, eid: string, at: int)
    requires did in db.deliveries && CreditDelivery(db, did, input, eid, at).1.Ok? && input.kind == EARN
    ensures input.delta > 0
  {
  }

  /** Processing one delivery credits no other key. */
  lemma ProcessCreditsOwn(db: Db, did: string, now: int, eid: string, partner: string, key: string)
    requires Valid(db) && Process(db, did, now, eid).1.Ok?
    requires var d := Process(db, did, now, eid).0; KeyCredited(d, partner, key) && !KeyCredited(db, partner, key)
    ensures var d := Process(db, did, now, eid).0;
      Received(db.deliveries[did], partner, key) && did in d.deliveries && d.deliveries[did].status == PROCESSED
  {
    hide Fresh, Append, Valid, ResolveRule;
    ProcessTouchesOne(db, did, now, eid);
    var body := db.deliveries[did].body;
    if Acceptable(body) && Fresh(body.occurredAt, now) && Priceable(db, body) {
      KeyIsEventId(db, did);
      var touched := Update(db, did, Touch(body.userRef, body.activityType));
      CreditOwnKey(touched, did, CreditOf(touched, touched.deliveries[did]), eid, now, partner, key);
    }
  }

  lemma CreditOwnKey(db: Db, did: string, input: AppendInput, eid: string, at: int, partner: string, key: string)
    requires did in db.deliveries && CreditDelivery(db, did, input, eid, at).1.Ok?
    requires input.source == PARTNER_PREFIX + db.deliveries[did].partner
    requires KeyCredited(CreditDelivery(db, did, input, eid, at).0, partner, key) && !KeyCredited(db, partner, key)
    ensures db.deliveries[did].partner == partner && input.eventId == Some(key)
  {
    AppendShape(db, input, eid, at);
    hide Append;
    var d := CreditDelivery(db, did, input, eid, at).0;
    assert forall j :: 0 <= j < |d.ledger| ==>
      d.ledger[j] == NewRow(input, eid, at) || (j < |db.ledger| && d.ledger[j] == db.ledger[j]);
    var i :| 0 <= i < |d.ledger| && HoldsKey(d.ledger[i], PARTNER_PREFIX + partner, Some(key));
    assert d.ledger[i] == NewRow(input, eid, at);
    assert (PARTNER_PREFIX + db.deliveries[did].partner)[|PARTNER_PREFIX|..] == db.deliveries[did].partner;
    assert (PARTNER_PREFIX + partner)[|PARTNER_PREFIX|..] == partner;
  }

  /** If it goes through, its event was not both priced and worthless; a row of no id in use lets it. */
  lemma ProcessGoesThrough(db: Db, did: string, now: int, eid: string)
    requires did in db.deliveries
    ensures var r := Process(db, did, now, eid).1;
      var blocked := Live(db.deliveries[did], now) && Priceable(db, db.deliveries[did].body) && Worthless(db, db.deliveries[did].body);
      && (r.Ok? ==> !blocked)
      && (Valid(db) && !HasId(db.ledger, eid) ==> (r.Ok? <==> !blocked))
  {
    hide Valid, HasId, Process, Fresh, Acceptable, ResolveRule;
    if Process(db, did, now, eid).1.Ok? {
      ProcessPlaces(db, did, now, eid);
    }
    if Valid(db) && !HasId(db.ledger, eid) {
      OutcomeIsDecided(db, did, now, eid);
    }
  }

  /** The ledger grows by at most a row under the id it was given. */
  lemma ProcessUsesItsId(db: Db, did: string, now: int, eid: string, id: string)
    requires Process(db, did, now, eid).1.Ok? && id != eid && !HasId(db.ledger, id)
    ensures !HasId(Process(db, did, now, eid).0.ledger, id)
  {
    hide Fresh, Append, ResolveRule;
    var body := db.deliveries[did].body;
    if Acceptable(body) && Fresh(body.occurredAt, now) && Priceable(db, body) {
      var touched := Update(db, did, Touch(body.userRef, body.activityType));
      AppendShape(touched, CreditOf(touched, touched.deliveries[did]), eid, now);
    }
  }

  // ----- One claimed candidate -----

  lemma ReclaimChangesNothing(db: Db, did: string, now: int)
    requires did in db.deliveries
    ensures var c := Update(db, did, Reclaim);
      && did in c.deliveries && c.deliveries[did].body == db.deliveries[did].body && c.ledger == db.ledger
      && c.deliveries[did].partner == db.deliveries[did].partner && c.deliveries[did].key == db.deliveries[did].key
      && c.users == db.users && c.rules == db.rules
  {
  }

  lemma ReplayOnePlaces(db: Db, did: string, now: int, eid: string)
    requires did in db.deliveries && ReplayOne(db, did, now, eid).1.Ok?
    ensures Placed(db, ReplayOne(db, did, now, eid).0, did, now)
  {
    hide Process, Update, Fresh, Acceptable, ResolveRule;
    ReclaimChangesNothing(db, did, now);
    ProcessPlaces(Update(db, did, Reclaim), did, now, eid);
  }

  lemma PlacedLater(db: Db, mid: Db, d: Db, did: string, rest: seq<string>, now: int)
    requires OnlyDelivery(db, mid, did) && OnlyListed(mid, d, rest) && did !in rest
    ensures Placed(db, mid, did, now) ==> Placed(db, d, did, now)
    ensures forall x, at :: x in rest && x in db.deliveries && x in mid.deliveries && Placed(mid, d, x, at) ==> Placed(db, d, x, at)
  {
    hide Acceptable, Fresh, ResolveRule;
  }

  // ----- A whole replay -----

  ghost predicate AllPlaced(db: Db, d: Db, dids: seq<string>, clock: string -> int) {
    forall did :: did in dids && did in db.deliveries && db.deliveries[did].status == UNMATCHED ==> Placed(db, d, did, clock(did))
  }

  /** Each delivery a backfill claimed ends where its own event, the users and the rules put it. */
  lemma {:induction false} ReplayPlaces(db: Db, dids: seq<string>, c: Counts, clock: string -> int, ids: string -> string)
    requires Distinct(dids) && Replay(db, dids, c, clock, ids).1.Ok?
    ensures AllPlaced(db, Replay(db, dids, c, clock, ids).0, dids, clock)
    decreases |dids|
  {
    hide Process, OnlyDelivery, OnlyListed, Update, Placed;
    if dids != [] {
      var did, rest := dids[0], dids[1..];
      assert dids == [did] + rest && did !in rest;
      if did !in db.deliveries || db.deliveries[did].status != UNMATCHED {
        ReplayPlaces(db, rest, c.(skipped := c.skipped + 1), clock, ids);
      } else {
        var (mid, outcome) := ReplayOne(db, did, clock(did), ids(did));
        ReplayedOne(db, did, clock(did), ids(did));
        ReplayOnePlaces(db, did, clock(did), ids(did));
        RestStaysClaimed(db, mid, did, rest);
        ReplayPlaces(mid, rest, Count(c, outcome.value), clock, ids);
        ReplayKeepsCount(mid, rest, Count(c, outcome.value), clock, ids);
        PlacedLater(db, mid, Replay(mid, rest, Count(c, outcome.value), clock, ids).0, did, rest, clock(did));
      }
    }
  }

  /** Each event on the list is still within the accepted window when its turn comes. */
  ghost predicate ClocksFresh(db: Db, dids: seq<string>, clock: string -> int) {
    forall did :: did in dids && did in db.deliveries && db.deliveries[did].body.Event? ==>
      Fresh(db.deliveries[did].body.occurredAt, clock(did))
  }

  /** Replaying what was parked prices it as if the rule or the user had been there all along: every claimed
      delivery whose event can be priced now ends PROCESSED, and only unacceptable ones end REJECTED. */
  lemma BackfillDrains(db: Db, dids: seq<string>, c: Counts, clock: string -> int, ids: string -> string)
    requires Distinct(dids) && Replay(db, dids, c, clock, ids).1.Ok?
    requires ClocksFresh(db, dids, clock)
    ensures var d := Replay(db, dids, c, clock, ids).0;
      forall did :: did in dids && did in db.deliveries && db.deliveries[did].status == UNMATCHED ==>
        var body := db.deliveries[did].body;
        && did in d.deliveries
        && (d.deliveries[did].status == PROCESSED <==> Acceptable(body) && Priceable(db, body))
        && (d.deliveries[did].status == REJECTED <==> !Acceptable(body))
  {
    ReplayPlaces(db, dids, c, clock, ids);
    hide Replay, Fresh, Worthless, ResolveRule;
    forall did | did in dids && did in db.deliveries && db.deliveries[did].status == UNMATCHED
      ensures Placed(db, Replay(db, dids, c, clock, ids).0, did, clock(did))
    {
    }
  }

  ghost predicate ClaimedAndCredited(db: Db, d: Db, dids: seq<string>, partner: string, key: string) {
    exists did :: did in dids && did in db.deliveries && Received(db.deliveries[did], partner, key)
      && db.deliveries[did].status == UNMATCHED && did in d.deliveries && d.deliveries[did].status == PROCESSED
  }

  /** A backfill credits only keys of deliveries it claimed, which it leaves PROCESSED. */
  lemma {:induction false} ReplayCreditsOwn(db: Db, dids: seq<string>, c: Counts, clock: string -> int, ids: string -> string,
                                            partner: string, key: string)
    requires Valid(db) && Distinct(dids) && Replay(db, dids, c, clock, ids).1.Ok?
    requires KeyCredited(Replay(db, dids, c, clock, ids).0, partner, key) && !KeyCredited(db, partner, key)
    ensures ClaimedAndCredited(db, Replay(db, dids, c, clock, ids).0, dids, partner, key)
    decreases |dids|
  {
    hide Valid, Evolves, Process, OnlyDelivery, OnlyListed, Update, KeyCredited;
    if dids != [] {
      var did, rest := dids[0], dids[1..];
      assert dids == [did] + rest && did !in rest;
      var d := Replay(db, dids, c, clock, ids).0;
      if did !in db.deliveries || db.deliveries[did].status != UNMATCHED {
        ReplayCreditsOwn(db, rest, c.(skipped := c.skipped + 1), clock, ids, partner, key);
        var x :| x in rest && x in db.deliveries && Received(db.deliveries[x], partner, key)
          && db.deliveries[x].status == UNMATCHED && x in d.deliveries && d.deliveries[x].status == PROCESSED;
        assert x in dids;
      } else {
        var (mid, outcome) := ReplayOne(db, did, clock(did), ids(did));
        ReplayedOne(db, did, clock(did), ids(did));
        ClaimKeepsCredits(db, did, partner, key);
        ProcessKeepsValid(Update(db, did, Reclaim), did, clock(did), ids(did));
        ReplayKeepsCount(mid, rest, Count(c, outcome.value), clock, ids);
        if KeyCredited(mid, partner, key) {
          ProcessCreditsOwn(Update(db, did, Reclaim), did, clock(did), ids(did), partner, key);
          ListedExtends(db, mid, d, did, rest);
          ListedKeys(mid, d, rest);
          assert did in dids;
        } else {
          ReplayCreditsOwn(mid, rest, Count(c, outcome.value), clock, ids, partner, key);
          RestStaysClaimed(db, mid, did, rest);
          var x :| x in rest && x in mid.deliveries && Received(mid.deliveries[x], partner, key)
            && mid.deliveries[x].status == UNMATCHED && x in d.deliveries && d.deliveries[x].status == PROCESSED;
          assert x in dids;
        }
      }
    }
  }

  lemma ClaimKeepsCredits(db: Db, did: string, partner: string, key: string)
    requires Valid(db) && did in db.deliveries
    ensures var c := Update(db, did, Reclaim);
      && Valid(c) && (KeyCredited(c, partner, key) <==> KeyCredited(db, partner, key))
      && did in c.deliveries && c.deliveries[did].partner == db.deliveries[did].partner && c.deliveries[did].key == db.deliveries[did].key
  {
    hide Valid, Evolves, CreditedFor;
    MarkStepKeepsValid(db, did, Reclaim);
  }

  // ----- When a backfill goes through -----

  /** The delivery is waiting, its event is accepted now, its user is known, and its rule gives it nothing. */
  predicate Aborts(db: Db, did: string, now: int) {
    && did in db.deliveries && db.deliveries[did].status == UNMATCHED && Live(db.deliveries[did], now)
    && Priceable(db, db.deliveries[did].body) && Worthless(db, db.deliveries[did].body)
  }

  /** Ids nobody has used yet, a different one for each candidate. */
  ghost predicate NewIds(db: Db, dids: seq<string>, ids: string -> string) {
    && (forall x :: x in dids ==> !HasId(db.ledger, ids(x)))
    && (forall x, y :: x in dids && y in dids && x != y ==> ids(x) != ids(y))
  }

  lemma AbortsLater(db: Db, mid: Db, did: string, x: string, now: int)
    requires OnlyDelivery(db, mid, did) && x != did
    ensures Aborts(mid, x, now) <==> Aborts(db, x, now)
  {
    hide Acceptable, Fresh, ResolveRule;
  }

  lemma ReplayOneGoesThrough(db: Db, did: string, now: int, eid: string)
    requires did in db.deliveries && db.deliveries[did].status == UNMATCHED
    ensures ReplayOne(db, did, now, eid).1.Ok? ==> !Aborts(db, did, now)
    ensures Valid(db) && !HasId(db.ledger, eid) ==> (ReplayOne(db, did, now, eid).1.Ok? <==> !Aborts(db, did, now))
  {
    hide Valid, Evolves, CreditedFor, Process, Update, Fresh, Acceptable, ResolveRule, HasId;
    ReclaimChangesNothing(db, did, now);
    ProcessGoesThrough(Update(db, did, Reclaim), did, now, eid);
    if Valid(db) {
      MarkStepKeepsValid(db, did, Reclaim);
    }
  }

  /** A backfill is all or nothing: one waiting event on its list that a rule prices at nothing or less makes it
      fail, and nothing else that is stored does. */
  lemma {:induction false} ReplayGoesThroughExactly(db: Db, dids: seq<string>, c: Counts, clock: string -> int, ids: string -> string)
    requires Distinct(dids)
    ensures Replay(db, dids, c, clock, ids).1.Ok? ==> forall x :: x in dids ==> !Aborts(db, x, clock(x))
    ensures Valid(db) && NewIds(db, dids, ids) ==>
      (Replay(db, dids, c, clock, ids).1.Ok? <==> forall x :: x in dids ==> !Aborts(db, x, clock(x)))
    decreases |dids|
  {
    hide Valid, Evolves, CreditedFor, Process, OnlyDelivery, Update, Live, Worthless, Priceable, HasId;
    if dids != [] {
      var did, rest := dids[0], dids[1..];
      assert dids == [did] + rest && did !in rest;
      if did !in db.deliveries || db.deliveries[did].status != UNMATCHED {
        ReplayGoesThroughExactly(db, rest, c.(skipped := c.skipped + 1), clock, ids);
      } else {
        ReplayOneGoesThrough(db, did, clock(did), ids(did));
        var (mid, outcome) := ReplayOne(db, did, clock(did), ids(did));
        if outcome.Ok? {
          ReplayedOne(db, did, clock(did), ids(did));
          ReplayGoesThroughExactly(mid, rest, Count(c, outcome.value), clock, ids);
          forall x | x in rest ensures Aborts(mid, x, clock(x)) <==> Aborts(db, x, clock(x)) {
            AbortsLater(db, mid, did, x, clock(x));
          }
          if Valid(db) && NewIds(db, dids, ids) {
            RestHasNewIds(db, did, rest, clock(did), ids);
          }
        }
      }
    }
  }

  lemma RestHasNewIds(db: Db, did: string, rest: seq<string>, now: int, ids: string -> string)
    requires Valid(db) && did in db.deliveries && did !in rest && NewIds(db, [did] + rest, ids)
    requires ReplayOne(db, did, now, ids(did)).1.Ok?
    ensures var mid := ReplayOne(db, did, now, ids(did)).0; Valid(mid) && NewIds(mid, rest, ids)
  {
    hide Valid, Evolves, CreditedFor, Process, Update, HasId;
    var all := [did] + rest;
    MarkStepKeepsValid(db, did, Reclaim);
    ReclaimChangesNothing(db, did, now);
    ProcessKeepsValid(Update(db, did, Reclaim), did, now, ids(did));
    assert did in all;
    forall x | x in rest ensures !HasId(ReplayOne(db, did, now, ids(did)).0.ledger, ids(x)) {
      assert x in all;
      ProcessUsesItsId(Update(db, did, Reclaim), did, now, ids(did), ids(x));
    }
  }

  /** So the backfill an operator runs goes through exactly when its filter names something and selects no waiting
      event that is accepted now and priced at nothing or less. */
  lemma BackfillGoesThroughExactly(db: Db, f: Filter, dids: seq<string>, clock: string -> int, ids: string -> string)
    requires Valid(db) && Candidates(db, f, dids) && NewIds(db, dids, ids)
    ensures Backfill(db, f, dids, clock, ids).1.Ok? <==>
      (f.userRef.Some? || f.activityType.Some?)
      && forall did :: did in db.deliveries && Selects(f, db.deliveries[did]) ==> !Aborts(db, did, clock(did))
  {
    hide Valid, Replay, Aborts, NewIds;
    ReplayGoesThroughExactly(db, dids, Counts(|dids|, 0, 0, 0, 0), clock, ids);
    forall did | did in dids ensures did in db.deliveries && Selects(f, db.deliveries[did]) {
    }
  }
}
