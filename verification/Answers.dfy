/** What ingestion does with an event, said of the event's own fields, and what its sender is told. */
module Answers {
  import opened Schema
  import opened Earning
  import opened Ledger
  import opened Redeeming
  import opened Webhook
  import opened Atoms
  import opened Ingestion
  import opened Parking
  import opened Columns

  // ----- What an event is -----

  /** The event carries its three names and nothing that cannot be stored. */
  predicate WellFormed(body: Body) {
    body.Event? && body.eventId != "" && body.userRef != "" && body.activityType != "" && !body.hasNul
  }

  /** At most ninety days old and at most an hour ahead, in milliseconds. */
  predicate Timely(body: Body, now: int)
    requires body.Event?
  {
    now - body.occurredAt <= 7_776_000_000 && body.occurredAt - now <= 3_600_000
  }

  /** The rule is the one that prices the event: active, of its type, and in force when it happened. */
  predicate PricesIt(r: Rule, body: Body)
    requires body.Event?
  {
    && r.active && r.activityType == body.activityType
    && r.from <= body.occurredAt && (r.to.Some? ==> body.occurredAt < r.to.value)
  }

  ghost predicate PricedAt(db: Db, body: Body, points: int) {
    body.Event? && exists i :: 0 <= i < |db.rules| && PricesIt(db.rules[i], body) && db.rules[i].points == points
  }

  /** The rule in force is the rule that is resolved, and there is at most one. */
  lemma ResolvedIsInForce(db: Db, body: Body)
    requires RulesInv(db.rules) && body.Event?
    ensures RuleFor(db, body).Some? ==> PricesIt(RuleFor(db, body).value, body) && PricedAt(db, body, RuleFor(db, body).value.points)
    ensures forall i :: 0 <= i < |db.rules| && PricesIt(db.rules[i], body) ==> RuleFor(db, body) == Some(db.rules[i])
  {
    hide ResolveRule, NoClash;
    if RuleFor(db, body).Some? {
      var i :| 0 <= i < |db.rules| && db.rules[i] == RuleFor(db, body).value;
      assert PricesIt(db.rules[i], body);
    }
    forall i | 0 <= i < |db.rules| && PricesIt(db.rules[i], body) ensures RuleFor(db, body) == Some(db.rules[i]) {
      ResolveIsTheOnlyMatch(db.rules, body.activityType, body.occurredAt, db.rules[i]);
    }
  }

  lemma ValidRules(db: Db)
    requires Valid(db)
    ensures RulesInv(db.rules)
  {
    hide LedgerState, RedemptionInv, DeliveryInv, RulesInv;
  }

  lemma PricedMeans(db: Db, body: Body)
    requires RulesInv(db.rules)
    ensures forall points :: PricedAt(db, body, points) <==>
      body.Event? && RuleFor(db, body).Some? && RuleFor(db, body).value.points == points
  {
    if body.Event? {
      ResolvedIsInForce(db, body);
    }
    hide ResolveRule, PricesIt, RulesInv;
  }

  // ----- What processing comes to -----

  /** Exactly what a stored delivery's processing comes to. An event that is not well formed or not timely is rejected;
      one of an unknown user, or without a rule in force, is parked; one priced at nothing or less cannot be entered in
      the ledger; and any other is processed. */
  lemma ProcessDecides(db: Db, did: string, now: int, eid: string)
    requires Valid(db) && !IdTaken(db.ledger, eid)
    ensures did !in db.deliveries ==> Process(db, did, now, eid) == (db, Err(DeliveryNotFound(did)))
    ensures did in db.deliveries ==>
      var body := db.deliveries[did].body;
      var r := Process(db, did, now, eid).1;
      var good := WellFormed(body) && Timely(body, now);
      var owned := good && body.userRef in db.users;
      && (r == Ok(Rejected) <==> !good)
      && (r == Ok(Parked(UNKNOWN_USER)) <==> good && !owned)
      && (r == Ok(Parked(NO_RULE)) <==> owned && !exists points :: PricedAt(db, body, points))
      && (r.Err? <==> owned && exists points :: PricedAt(db, body, points) && points <= 0)
      && (r.Err? ==> r.error == CheckViolation)
      && (r.Ok? && r.value.Processed? <==> owned && exists points :: PricedAt(db, body, points) && points > 0)
  {
    if did !in db.deliveries {
      return;
    }
    TakenIsTaken(db.ledger, eid);
    ValidRules(db);
    AcceptedIsGood(db.deliveries[did].body, now);
    ProcessErrs(db, did, now, eid);
    hide Valid, RulesInv, IdTaken, HasId, WellFormed, Timely, Acceptable, Fresh, PricedAt, ResolveRule;
    var body := db.deliveries[did].body;
    OutcomeIsDecided(db, did, now, eid);
    PricedMeans(db, body);
    if body.Event? && RuleFor(db, body).Some? {
      assert PricedAt(db, body, RuleFor(db, body).value.points);
    }
  }

  lemma ProcessErrs(db: Db, did: string, now: int, eid: string)
    requires Valid(db) && did in db.deliveries && !HasId(db.ledger, eid)
    ensures Process(db, did, now, eid).1.Err? ==> Process(db, did, now, eid).1.error == CheckViolation
  {
    OutcomeIsDecided(db, did, now, eid);
    hide Valid, Fresh, FindKey, HasId, HasReversal;
    var body := db.deliveries[did].body;
    if Priceable(db, body) && RuleFor(db, body).value.points <= 0 {
      assert UserExists(db, db.users[body.userRef]);
    }
  }

  lemma AcceptedIsGood(body: Body, now: int)
    ensures Acceptable(body) <==> WellFormed(body)
    ensures WellFormed(body) ==> body.Event? && (Fresh(body.occurredAt, now) <==> Timely(body, now))
  {
  }

  /** The credit a partner's event has in the ledger: under the partner's source and the event's id, to the event's
      user, at the points of the rule in force and naming that rule. */
  ghost predicate CreditedBy(db: Db, e: Entry, partner: string, body: Body) {
    && body.Event? && e.kind == EARN && e.source == "partner:" + partner && e.eventId == Some(body.eventId)
    && body.userRef in db.users && e.userId == db.users[body.userRef]
    && e.redemptionId.None? && e.reversesId.None?
    && exists i :: 0 <= i < |db.rules| && PricesIt(db.rules[i], body) && e.delta == db.rules[i].points && e.ruleId == Some(db.rules[i].id)
  }

  /** What a processed event is answered: the points of the rule in force, the user's balance as it is now, and the id of
      a ledger row that is the event's credit. If the event had been credited before, that row was there and nothing
      moves; otherwise it is the one row added, dated now, and the balance is up by its points. */
  lemma ProcessedAnswers(db: Db, did: string, now: int, eid: string)
    requires Valid(db) && Process(db, did, now, eid).1.Ok? && Process(db, did, now, eid).1.value.Processed?
    ensures var (d, r) := Process(db, did, now, eid);
      var row := db.deliveries[did];
      && row.body.Event? && row.body.userRef in db.users
      && var u := db.users[row.body.userRef];
         var balance := if u in db.balances then db.balances[u] else 0;
         && PricedAt(db, row.body, r.value.points)
         && u in d.balances && r.value.balanceAfter == d.balances[u]
         && (exists i :: 0 <= i < |d.ledger| && d.ledger[i].id == r.value.transactionId && CreditedBy(db, d.ledger[i], row.partner, row.body)
                         && d.ledger[i].delta == r.value.points)
         && (r.value.alreadyCredited <==> Recorded(db.ledger, "partner:" + row.partner, Some(row.body.eventId)))
         && if r.value.alreadyCredited then d.ledger == db.ledger && r.value.balanceAfter == balance
            else
              && |d.ledger| == |db.ledger| + 1 && d.ledger[..|db.ledger|] == db.ledger
              && d.ledger[|db.ledger|].id == eid && r.value.transactionId == eid && d.ledger[|db.ledger|].createdAt == now
              && r.value.balanceAfter == balance + r.value.points
  {
    hide Valid, RulesInv, IdTaken, Recorded, Fresh, CreditedBy, Append, ResolveRule, PricesIt, PricedAt, Process;
    ProcessedAppends(db, did, now, eid);
    ValidRules(db);
    var row := db.deliveries[did];
    var body := row.body;
    ResolvedIsInForce(db, body);
    var rule := RuleFor(db, body).value;
    var touched := Update(db, did, Touch(body.userRef, body.activityType));
    var input := CreditInput(row.partner, body.eventId, db.users[body.userRef], rule);
    AppendWrites(touched, input, eid, now);
    AppendDecides(touched, input, eid, now);
    var (d, r) := Process(db, did, now, eid);
    if r.value.alreadyCredited {
      var e :| e in db.ledger && e.id == r.value.transactionId && e.source == input.source && e.eventId == input.eventId;
      FoundIsCredit(db, did, e);
      var i :| 0 <= i < |db.ledger| && db.ledger[i] == e;
      SameCredit(db, d, e, row.partner, body);
      assert d.ledger[i] == e;
    } else {
      AddedIsCredit(db, row.partner, body, eid, now);
      SameCredit(db, d, d.ledger[|db.ledger|], row.partner, body);
    }
  }

  /** Processing that credits is one append under the event's key. */
  lemma ProcessedAppends(db: Db, did: string, now: int, eid: string)
    requires Process(db, did, now, eid).1.Ok? && Process(db, did, now, eid).1.value.Processed?
    ensures var (d, r) := Process(db, did, now, eid);
      && did in db.deliveries
      && var row := db.deliveries[did];
      && WellFormed(row.body) && Priceable(db, row.body)
      && var touched := Update(db, did, Touch(row.body.userRef, row.body.activityType));
         var rule := RuleFor(db, row.body).value;
         var (a, entry) := Append(touched, CreditInput(row.partner, row.body.eventId, db.users[row.body.userRef], rule), eid, now);
         && entry.Ok? && d.ledger == a.ledger && d.balances == a.balances && d.rules == db.rules && d.users == db.users
         && r.value == Processed(entry.value.transactionId, rule.points, entry.value.balanceAfter, entry.value.duplicate)
  {
    hide Fresh, Append, ResolveRule;
    ProcessTouchesOne(db, did, now, eid);
    var body := db.deliveries[did].body;
    var touched := Update(db, did, Touch(body.userRef, body.activityType));
    assert touched.deliveries[did].body == body && touched.deliveries[did].partner == db.deliveries[did].partner;
    assert Process(db, did, now, eid) == Price(touched, did, now, eid);
    AppendWrites(touched, CreditInput(db.deliveries[did].partner, body.eventId, db.users[body.userRef], RuleFor(db, body).value), eid, now);
  }

  lemma SameCredit(db: Db, d: Db, e: Entry, partner: string, body: Body)
    requires d.users == db.users && d.rules == db.rules
    ensures CreditedBy(d, e, partner, body) <==> CreditedBy(db, e, partner, body)
  {
  }

  lemma FoundIsCredit(db: Db, did: string, e: Entry)
    requires Valid(db) && did in db.deliveries && WellFormed(db.deliveries[did].body)
    requires e in db.ledger && e.source == "partner:" + db.deliveries[did].partner
      && e.eventId == Some(db.deliveries[did].body.eventId)
    ensures CreditedBy(db, e, db.deliveries[did].partner, db.deliveries[did].body)
    ensures RuleFor(db, db.deliveries[did].body).Some? && e.delta == RuleFor(db, db.deliveries[did].body).value.points
  {
    ValidRules(db);
    KeyIsEventId(db, did);
    var i :| 0 <= i < |db.ledger| && db.ledger[i] == e;
    CreditOfKey(db, did, i);
    ResolvedIsInForce(db, db.deliveries[did].body);
    hide Valid, ResolveRule, Acceptable, RulesInv;
    var rule := RuleFor(db, db.deliveries[did].body).value;
    var j :| 0 <= j < |db.rules| && db.rules[j] == rule;
    assert PricesIt(db.rules[j], db.deliveries[did].body);
  }

  lemma CreditOfKey(db: Db, did: string, i: nat)
    requires Valid(db) && did in db.deliveries && i < |db.ledger|
    requires HoldsKey(db.ledger[i], PARTNER_PREFIX + db.deliveries[did].partner, Some(db.deliveries[did].key))
    ensures EarnedBy(db, db.ledger[i], db.deliveries[did])
    ensures db.ledger[i].redemptionId.None? && db.ledger[i].reversesId.None?
  {
    hide RulesInv, AllAccounted, ClaimsUnique, RowsSound, BalancesMatch, BalancesOwned, FloorHolds, DistinctIds, DistinctKeys, UndoesEarlier, EarnedBy;
    KeyHolderIsOwnCredit(db, did, i);
    EarnedIsEarn(db, db.ledger[i], db.deliveries[did]);
    assert WellLabelled(db.ledger[i]);
  }

  lemma EarnedIsEarn(db: Db, e: Entry, d: Delivery)
    requires EarnedBy(db, e, d)
    ensures e.kind == EARN
  {
  }

  lemma AddedIsCredit(db: Db, partner: string, body: Body, eid: string, now: int)
    requires RulesInv(db.rules) && WellFormed(body) && Priceable(db, body)
    ensures var rule := RuleFor(db, body).value;
      CreditedBy(db, Entry(eid, db.users[body.userRef], rule.points, EARN, "partner:" + partner, Some(body.eventId),
                           None, Some(rule.id), None, now), partner, body)
  {
    ResolvedIsInForce(db, body);
    hide ResolveRule, RulesInv;
    var rule := RuleFor(db, body).value;
    var j :| 0 <= j < |db.rules| && db.rules[j] == rule;
    assert PricesIt(db.rules[j], body);
  }

  // ----- What is written to the delivery -----

  /** The delivery's row after its processing, whatever came of it: a rejected or parked row says so, a parked one why, and
      a processed one no longer; the user and the activity type are those of a well-formed event. Nothing else in the
      row, no other row, and, unless it is processed, no ledger row and no balance changes. */
  lemma ProcessWrites(db: Db, did: string, now: int, eid: string)
    requires Process(db, did, now, eid).1.Ok?
    ensures var (d, r) := Process(db, did, now, eid);
      && did in db.deliveries
      && var row := db.deliveries[did];
         var touched := if WellFormed(row.body) then
                          row.(userRef := Some(row.body.userRef), activityType := Some(row.body.activityType))
                        else row;
         && d.deliveries == db.deliveries[did :=
              match r.value
              case Processed(_, _, _, _) => touched.(status := PROCESSED, reason := None)
              case Parked(reason) => touched.(status := UNMATCHED, reason := Some(reason))
              case Rejected => touched.(status := REJECTED)]
         && (!r.value.Processed? ==> d == db.(deliveries := d.deliveries))
  {
    hide Fresh, ResolveRule, Append;
    var body := db.deliveries[did].body;
    if WellFormed(body) && Process(db, did, now, eid).1.value.Processed? {
      var touched := Update(db, did, Touch(body.userRef, body.activityType));
      var input := CreditInput(db.deliveries[did].partner, body.eventId, db.users[body.userRef], RuleFor(db, body).value);
      AppendShape(touched, input, eid, now);
    }
  }

  // ----- Capture -----

  ghost predicate Usable(body: Body, key: string) {
    || (body.Event? && key == body.eventId && key != "")
    || (body.Invalid? && body.eventIdField == Some(key) && key != "")
  }

  /** The key the body is stored under. */
  ghost predicate KeyOfBody(body: Body, key: string) {
    Usable(body, key) || ((forall k :: !Usable(body, k)) && key == "unparsed:" + body.digest)
  }

  lemma ResolvedKeyOfBody(body: Body)
    ensures KeyOfBody(body, ResolveKey(body))
    ensures forall key :: KeyOfBody(body, key) ==> key == ResolveKey(body)
  {
    match body
    case Malformed(_) =>
    case Invalid(field, _) =>
      if field.Some? && field.value != "" {
        assert Usable(body, field.value);
      }
    case Event(id, _, _, _, _, _) =>
      if id != "" {
        assert Usable(body, id);
      }
  }

  ghost predicate StoredAs(db: Db, did: string, partner: string, key: string) {
    did in db.deliveries && db.deliveries[did].partner == partner && db.deliveries[did].key == key
  }

  /** What capturing a body leaves and answers. Under a key the partner has used, it counts one more attempt of that row
      and answers with it as it stands; under a new one it stores the body as it came, received now, once. */
  lemma CaptureWrites(db: Db, partner: string, body: Body, did: string, at: int, key: string)
    requires Valid(db) && KeyOfBody(body, key)
    ensures var (d, r) := Capture(db, partner, body, did, at);
      && (forall x :: StoredAs(db, x, partner, key) ==>
            && d == db.(deliveries := db.deliveries[x := db.deliveries[x].(attempts := db.deliveries[x].attempts + 1)])
            && r == Ok(Captured(x, key, true, db.deliveries[x].status)))
      && ((forall x :: !StoredAs(db, x, partner, key)) ==>
            if did in db.deliveries then d == db && r == Err(UniqueViolation)
            else
              && d == db.(deliveries := db.deliveries[did := Delivery(partner, key, RECEIVED, None, body, None, None, 1, at)])
              && r == Ok(Captured(did, key, false, RECEIVED)))
  {
    hide Valid, FindDelivery, KeyOfBody, ResolveKey;
    ResolvedKeyOfBody(body);
    var seen := FindDelivery(db, partner, key);
    if seen.Some? {
      assert StoredAs(db, seen.value, partner, key);
      forall x | StoredAs(db, x, partner, key) ensures x == seen.value {
        OneHolder(db, x, seen.value);
      }
    }
  }

  // ----- The route -----

  predicate Settled(s: DeliveryStatus) {
    s == PROCESSED || s == UNMATCHED || s == REJECTED
  }

  /** A repeat under a key whose delivery is settled is answered from it, and only counted. */
  lemma RouteMirrors(db: Db, partner: string, body: Body, did: string, eid: string, now: int, outage: bool, key: string, x: string)
    requires Valid(db) && KeyOfBody(body, key) && StoredAs(db, x, partner, key) && Settled(db.deliveries[x].status)
    ensures var (d, r) := PostWebhook(db, partner, body, did, eid, now, outage);
      && d == db.(deliveries := db.deliveries[x := db.deliveries[x].(attempts := db.deliveries[x].attempts + 1)])
      && r.Ok? && r.value.deliveryId == x && r.value.duplicate && r.value.outcome.None?
      && r.value.code == match db.deliveries[x].status
                         case PROCESSED => 200
                         case UNMATCHED => 202
                         case _ => 400
  {
    hide Valid, KeyOfBody, Capture, Process;
    CaptureWrites(db, partner, body, did, now, key);
  }

  /** Any other request captures its body, or counts it, and processes what is stored. It is answered 400 if that is
      rejected and 202 otherwise, with the outcome; its duplicate flag says exactly whether the key had been stored
      before. Unprocessed, it leaves the delivery FAILED and reports the error. */
  lemma RouteProcesses(db: Db, partner: string, body: Body, did: string, eid: string, now: int, outage: bool, key: string)
    requires Valid(db) && KeyOfBody(body, key) && did !in db.deliveries
    requires forall x :: StoredAs(db, x, partner, key) ==> !Settled(db.deliveries[x].status)
    ensures var (captured, c) := Capture(db, partner, body, did, now);
      var (d, r) := PostWebhook(db, partner, body, did, eid, now, outage);
      && c.Ok? && c.value.deliveryId in captured.deliveries
      && var id := c.value.deliveryId;
         var (done, o) := Process(captured, id, now, eid);
         && (outage ==> r == Err(Infrastructure))
         && (!outage && o.Err? ==> r == Err(o.error))
         && (r.Err? ==> d == captured.(deliveries := captured.deliveries[id := captured.deliveries[id].(status := DELIVERY_FAILED)]))
         && (!outage && o.Ok? ==>
               && d == done
               && r == Ok(Response(if o.value.Rejected? then 400 else 202, id, exists x :: StoredAs(db, x, partner, key), Some(o.value))))
  {
    hide Valid, KeyOfBody, Capture, Process, FindDelivery, Evolves;
    CaptureWrites(db, partner, body, did, now, key);
    var (captured, c) := Capture(db, partner, body, did, now);
    if x :| StoredAs(db, x, partner, key) {
    } else {
      FirstIsNoRepeat(db, partner, body, did, eid, now, key);
    }
  }

  /** A first delivery that is processed is credited by it. */
  lemma FirstIsNoRepeat(db: Db, partner: string, body: Body, did: string, eid: string, now: int, key: string)
    requires Valid(db) && KeyOfBody(body, key) && did !in db.deliveries && forall x :: !StoredAs(db, x, partner, key)
    ensures var r := Process(Capture(db, partner, body, did, now).0, did, now, eid).1;
      r.Ok? && r.value.Processed? ==> !r.value.alreadyCredited
  {
    hide Valid, KeyOfBody, Capture, Process, FindDelivery, Evolves, Recorded;
    CaptureWrites(db, partner, body, did, now, key);
    var captured := Capture(db, partner, body, did, now).0;
    if Process(captured, did, now, eid).1.Ok? && Process(captured, did, now, eid).1.value.Processed? {
      CaptureKeepsValid(db, partner, body, did, now);
      ProcessedAnswers(captured, did, now, eid);
      ProcessedAppends(captured, did, now, eid);
      KeyIsEventId(captured, did);
      RecordedIsStored(db, partner, key);
    }
  }

  /** Nothing is credited under a key nothing is stored under. */
  lemma RecordedIsStored(db: Db, partner: string, key: string)
    requires Valid(db)
    ensures Recorded(db.ledger, "partner:" + partner, Some(key)) ==> exists x :: StoredAs(db, x, partner, key)
  {
    hide Valid, EarnedBy;
    if Recorded(db.ledger, "partner:" + partner, Some(key)) {
      var i :| 0 <= i < |db.ledger| && db.ledger[i].source == "partner:" + partner && db.ledger[i].eventId == Some(key);
      RowIsExplained(db, i, partner, key);
      var x :| x in db.deliveries && Received(db.deliveries[x], partner, key) && EarnedBy(db, db.ledger[i], db.deliveries[x]);
      assert StoredAs(db, x, partner, key);
    }
  }

  /** What the sender of a credited event is told: the points its stored event is worth under the rule in force, its
      user's balance as it is now, and a ledger row that is the event's credit for those points. */
  lemma RouteReportsTheCredit(db: Db, partner: string, body: Body, did: string, eid: string, now: int, outage: bool, key: string)
    requires Valid(db) && KeyOfBody(body, key) && did !in db.deliveries
    requires var r := PostWebhook(db, partner, body, did, eid, now, outage).1;
      r.Ok? && r.value.outcome.Some? && r.value.outcome.value.Processed?
    ensures var (d, r) := PostWebhook(db, partner, body, did, eid, now, outage);
      var o := r.value.outcome.value;
      && StoredAs(d, r.value.deliveryId, partner, key)
      && var event := d.deliveries[r.value.deliveryId].body;
         && PricedAt(d, event, o.points)
         && event.Event? && event.userRef in d.users && d.users[event.userRef] in d.balances
         && o.balanceAfter == d.balances[d.users[event.userRef]]
         && exists i :: 0 <= i < |d.ledger| && d.ledger[i].id == o.transactionId && CreditedBy(d, d.ledger[i], partner, event)
                        && d.ledger[i].delta == o.points
  {
    hide Valid, KeyOfBody, Capture, Process, FindDelivery, Evolves, PostWebhook, CreditedBy, PricedAt;
    if x :| StoredAs(db, x, partner, key) && Settled(db.deliveries[x].status) {
      RouteMirrors(db, partner, body, did, eid, now, outage, key, x);
    } else {
      RouteProcesses(db, partner, body, did, eid, now, outage, key);
      CaptureWrites(db, partner, body, did, now, key);
      CaptureKeepsValid(db, partner, body, did, now);
      var (captured, c) := Capture(db, partner, body, did, now);
      ProcessedAnswers(captured, c.value.deliveryId, now, eid);
      ProcessTouchesOne(captured, c.value.deliveryId, now, eid);
      var (d, r) := PostWebhook(db, partner, body, did, eid, now, outage);
      var event, o := captured.deliveries[c.value.deliveryId].body, r.value.outcome.value;
      SamePrice(captured, d, event);
      var i :| 0 <= i < |d.ledger| && d.ledger[i].id == o.transactionId && CreditedBy(captured, d.ledger[i], partner, event)
               && d.ledger[i].delta == o.points;
      SameCredit(captured, d, d.ledger[i], partner, event);
    }
  }

  lemma SamePrice(db: Db, d: Db, body: Body)
    requires d.rules == db.rules
    ensures forall points :: PricedAt(d, body, points) <==> PricedAt(db, body, points)
  {
  }
}
