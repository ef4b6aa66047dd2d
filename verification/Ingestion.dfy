/** What processing and backfill do to the deliveries and to the points earned. */
module Ingestion {
  import opened Schema
  import opened Earning
  import opened Ledger
  import opened Redeeming
  import opened Webhook
  import opened Atoms

  function RuleFor(db: Db, body: Body): Option<Rule>
    requires body.Event?
  {
    ResolveRule(db.rules, body.activityType, body.occurredAt)
  }

  /** The database knows the user and has a rule in force when the event happened. */
  predicate Priceable(db: Db, body: Body) {
    body.Event? && body.userRef in db.users && RuleFor(db, body).Some?
  }

  /** What a well-formed credit of this delivery asks the ledger to append. */
  function CreditOf(db: Db, d: Delivery): AppendInput
    requires Priceable(db, d.body)
  {
    CreditInput(d.partner, d.body.eventId, db.users[d.body.userRef], RuleFor(db, d.body).value)
  }

  // ----- One delivery -----

  predicate OnlyDelivery(db: Db, d: Db, did: string) {
    && did in db.deliveries && did in d.deliveries
    && d.deliveries == db.deliveries[did := d.deliveries[did]]
    && SameDelivery(db.deliveries[did], d.deliveries[did])
    && d.users == db.users && d.rules == db.rules && d.rewards == db.rewards && d.redemptions == db.redemptions
  }

  lemma UpdateTouchesOne(db: Db, did: string, c: Change)
    requires did in db.deliveries
    ensures OnlyDelivery(db, Update(db, did, c), did)
  {
    AlterKeepsIdentity(db.deliveries[did], c);
  }

  lemma CreditTouchesOne(db: Db, did: string, input: AppendInput, eid: string, at: int)
    requires did in db.deliveries && CreditDelivery(db, did, input, eid, at).1.Ok?
    ensures OnlyDelivery(db, CreditDelivery(db, did, input, eid, at).0, did)
    ensures CreditDelivery(db, did, input, eid, at).0.deliveries[did].status == PROCESSED
  {
    AppendShape(db, input, eid, at);
    hide Append;
  }

  lemma OnlyDeliveryTwice(a: Db, b: Db, c: Db, did: string)
    requires OnlyDelivery(a, b, did) && OnlyDelivery(b, c, did)
    ensures OnlyDelivery(a, c, did)
  {
  }

  /** Processing writes the status its outcome names, and touches no other delivery. */
  lemma ProcessTouchesOne(db: Db, did: string, now: int, eid: string)
    requires Process(db, did, now, eid).1.Ok?
    ensures var (d, r) := Process(db, did, now, eid);
      OnlyDelivery(db, d, did) && d.deliveries[did].status == StatusOf(r.value)
  {
    hide OnlyDelivery, CreditDelivery, Fresh, SameDelivery;
    var body := db.deliveries[did].body;
    if !Acceptable(body) {
      UpdateTouchesOne(db, did, Reject);
    } else {
      var touched := Update(db, did, Touch(body.userRef, body.activityType));
      UpdateTouchesOne(db, did, Touch(body.userRef, body.activityType));
      PriceTouchesOne(touched, did, now, eid);
      OnlyDeliveryTwice(db, touched, Process(db, did, now, eid).0, did);
    }
  }

  lemma PriceTouchesOne(db: Db, did: string, now: int, eid: string)
    requires did in db.deliveries && Acceptable(db.deliveries[did].body)
    requires Price(db, did, now, eid).1.Ok?
    ensures var (d, r) := Price(db, did, now, eid);
      OnlyDelivery(db, d, did) && d.deliveries[did].status == StatusOf(r.value)
  {
    hide OnlyDelivery, CreditDelivery, Fresh;
    var body := db.deliveries[did].body;
    UpdateTouchesOne(db, did, Reject);
    UpdateTouchesOne(db, did, Park(UNKNOWN_USER));
    UpdateTouchesOne(db, did, Park(NO_RULE));
    if Fresh(body.occurredAt, now) && body.userRef in db.users && ResolveRule(db.rules, body.activityType, body.occurredAt).Some? {
      var input := CreditInput(db.deliveries[did].partner, body.eventId, db.users[body.userRef],
                               ResolveRule(db.rules, body.activityType, body.occurredAt).value);
      CreditTouchesOne(db, did, input, eid, now);
      CreditIsProcessed(db, did, input, eid, now);
    }
  }

  lemma CreditIsProcessed(db: Db, did: string, input: AppendInput, eid: string, at: int)
    requires did in db.deliveries && CreditDelivery(db, did, input, eid, at).1.Ok?
    ensures CreditDelivery(db, did, input, eid, at).1.value.Processed?
  {
  }

  /** Processing is one or two of the steps every run is made of, so it keeps everything they keep. */
  lemma ProcessKeepsValid(db: Db, did: string, now: int, eid: string)
    requires Valid(db) && Process(db, did, now, eid).1.Ok?
    ensures Valid(Process(db, did, now, eid).0) && Evolves(db, Process(db, did, now, eid).0)
  {
    hide Valid, Evolves, CreditDelivery, Fresh, CreditedFor;
    var body := db.deliveries[did].body;
    if !Acceptable(body) {
      MarkStepKeepsValid(db, did, Reject);
    } else {
      var touched := Update(db, did, Touch(body.userRef, body.activityType));
      MarkStepKeepsValid(db, did, Touch(body.userRef, body.activityType));
      PriceKeepsValid(touched, did, now, eid);
      EvolvesTransitive(db, touched, Process(db, did, now, eid).0);
    }
  }

  lemma PriceKeepsValid(db: Db, did: string, now: int, eid: string)
    requires Valid(db) && did in db.deliveries && Acceptable(db.deliveries[did].body)
    requires Price(db, did, now, eid).1.Ok?
    ensures Valid(Price(db, did, now, eid).0) && Evolves(db, Price(db, did, now, eid).0)
  {
    hide Valid, Evolves, CreditDelivery, Fresh, CreditedFor;
    var body := db.deliveries[did].body;
    MarkStepKeepsValid(db, did, Reject);
    MarkStepKeepsValid(db, did, Park(UNKNOWN_USER));
    MarkStepKeepsValid(db, did, Park(NO_RULE));
    if Fresh(body.occurredAt, now) && body.userRef in db.users && ResolveRule(db.rules, body.activityType, body.occurredAt).Some? {
      var input := CreditInput(db.deliveries[did].partner, body.eventId, db.users[body.userRef],
                               ResolveRule(db.rules, body.activityType, body.occurredAt).value);
      CreditStepKeepsValid(db, did, input, eid, now);
    }
  }

  /** Exactly when processing fails, and exactly which outcome it has otherwise. The only failure left to a
      stored delivery is a rule priced at nothing or less. */
  lemma OutcomeIsDecided(db: Db, did: string, now: int, eid: string)
    requires Valid(db) && did in db.deliveries && !HasId(db.ledger, eid)
    ensures var body := db.deliveries[did].body;
      var r := Process(db, did, now, eid).1;
      var live := Acceptable(body) && Fresh(body.occurredAt, now);
      && (r.Err? <==> live && Priceable(db, body) && RuleFor(db, body).value.points <= 0)
      && (r.Ok? && r.value.Processed? <==> live && Priceable(db, body) && RuleFor(db, body).value.points > 0)
      && (r == Ok(Rejected) <==> !live)
      && (r == Ok(Parked(UNKNOWN_USER)) <==> live && body.userRef !in db.users)
      && (r == Ok(Parked(NO_RULE)) <==> live && body.userRef in db.users && RuleFor(db, body).None?)
  {
    hide Valid, Fresh, CreditDelivery;
    var body := db.deliveries[did].body;
    if Acceptable(body) && Fresh(body.occurredAt, now) && Priceable(db, body) {
      var touched := Update(db, did, Touch(body.userRef, body.activityType));
      CreditSucceedsWhenPositive(touched, did, eid, now);
    }
  }

  lemma CreditSucceedsWhenPositive(db: Db, did: string, eid: string, at: int)
    requires did in db.deliveries && Priceable(db, db.deliveries[did].body) && !HasId(db.ledger, eid)
    ensures var r := CreditDelivery(db, did, CreditOf(db, db.deliveries[did]), eid, at).1;
      && (r.Ok? <==> RuleFor(db, db.deliveries[did].body).value.points > 0)
      && (r.Ok? ==> r.value.Processed?)
  {
    var body := db.deliveries[did].body;
    assert UserExists(db, db.users[body.userRef]);
    var rule := RuleFor(db, body).value;
    assert rule in db.rules;
  }

  /** Processing a delivery that has been credited already, whatever its status says by now, finds the
      credit, moves nothing, and marks it PROCESSED again. */
  lemma RetryCreditsNothingNew(db: Db, did: string, now: int, eid: string)
    requires Valid(db) && did in db.deliveries && CreditedFor(db, db.deliveries[did])
    requires Fresh(db.deliveries[did].body.occurredAt, now)
    ensures var (d, r) := Process(db, did, now, eid);
      && r.Ok? && r.value.Processed? && r.value.alreadyCredited
      && d.ledger == db.ledger && (forall u :: Balance(d, u) == Balance(db, u))
      && did in d.deliveries && d.deliveries[did].status == PROCESSED
  {
    hide RedemptionInv, DeliveryInv, RulesInv, BalancesMatch, FloorHolds, Fresh, UndoesEarlier;
    var i :| 0 <= i < |db.ledger| && EarnedBy(db, db.ledger[i], db.deliveries[did]);
    var e := db.ledger[i];
    assert WellLabelled(e);
    KeyIsEventId(db, did);
    var body := db.deliveries[did].body;
    var touched := Update(db, did, Touch(body.userRef, body.activityType));
    var input := CreditOf(touched, touched.deliveries[did]);
    assert HoldsKey(e, input.source, input.eventId);
    assert UserExists(touched, input.userId);
    assert forall u :: Balance(Materialise(touched, input.userId), u) == Balance(db, u);
  }

  lemma KeyIsEventId(db: Db, did: string)
    requires Valid(db) && did in db.deliveries && Acceptable(db.deliveries[did].body)
    ensures db.deliveries[did].key == db.deliveries[did].body.eventId
  {
    hide LedgerState, RedemptionInv, RulesInv, EarnsExplained, ProcessedCredited, DeliveriesUnique;
  }

  // ----- The route -----

  lemma CaptureShape(db: Db, partner: string, body: Body, did: string, at: int)
    requires Capture(db, partner, body, did, at).1.Ok?
    ensures var (d, r) := Capture(db, partner, body, did, at);
      && r.value.deliveryId in d.deliveries
      && d.deliveries[r.value.deliveryId].status == r.value.status
      && d == db.(deliveries := d.deliveries)
      && (r.value.duplicate <==> r.value.deliveryId in db.deliveries)
      && Received(d.deliveries[r.value.deliveryId], partner, ResolveKey(body))
      && d.deliveries[r.value.deliveryId].attempts ==
           (if r.value.duplicate then db.deliveries[r.value.deliveryId].attempts + 1 else 1)
  {
  }

  /** What the sender is told agrees with what is stored: a success names a delivery whose terminal status the
      code reflects, and an error after capture leaves it FAILED, with the ledger as it was. */
  lemma RouteTellsWhatIsStored(db: Db, partner: string, body: Body, did: string, eid: string, now: int, outage: bool)
    requires Capture(db, partner, body, did, now).1.Ok?
    ensures var (d, r) := PostWebhook(db, partner, body, did, eid, now, outage);
      var id := Capture(db, partner, body, did, now).1.value.deliveryId;
      && id in d.deliveries && Received(d.deliveries[id], partner, ResolveKey(body))
      && (r.Ok? ==> r.value.deliveryId == id && IsTerminal(d.deliveries[id].status)
                    && (r.value.code == 400 <==> d.deliveries[id].status == REJECTED)
                    && (r.value.code == 200 <==> d.deliveries[id].status == PROCESSED && r.value.outcome.None?)
                    && r.value.code in {200, 202, 400}
                    && (r.value.outcome.Some? ==> StatusOf(r.value.outcome.value) == d.deliveries[id].status))
      && (r.Err? ==> d.deliveries[id].status == DELIVERY_FAILED && d == db.(deliveries := d.deliveries))
  {
    hide Process, Capture, Alter;
    CaptureShape(db, partner, body, did, now);
    var (captured, c) := Capture(db, partner, body, did, now);
    UpdateTouchesOne(captured, c.value.deliveryId, Fail);
    FailedStatus(captured.deliveries[c.value.deliveryId]);
    if !(c.value.duplicate && IsTerminal(c.value.status)) && !outage {
      if Process(captured, c.value.deliveryId, now, eid).1.Ok? {
        ProcessTouchesOne(captured, c.value.deliveryId, now, eid);
      }
    }
  }

  lemma CaptureKeepsValid(db: Db, partner: string, body: Body, did: string, at: int)
    requires Valid(db) && Capture(db, partner, body, did, at).1.Ok?
    ensures Valid(Capture(db, partner, body, did, at).0) && Evolves(db, Capture(db, partner, body, did, at).0)
  {
    hide Valid, Evolves, FindDelivery, CreditedFor, Alter;
    var seen := FindDelivery(db, partner, ResolveKey(body));
    if seen.Some? {
      MarkStepKeepsValid(db, seen.value, Bump);
    } else {
      ArriveStepKeepsValid(db, did, NewDelivery(partner, body, at));
    }
  }

  /** The route keeps the whole invariant, whatever it answers. */
  lemma PostWebhookKeepsValid(db: Db, partner: string, body: Body, did: string, eid: string, now: int, outage: bool)
    requires Valid(db)
    ensures var d := PostWebhook(db, partner, body, did, eid, now, outage).0; Valid(d) && Evolves(db, d)
  {
    hide Valid, Evolves, Process, Capture, Alter, CreditedFor;
    EvolvesReflexive(db);
    if Capture(db, partner, body, did, now).1.Ok? {
      CaptureShape(db, partner, body, did, now);
      CaptureKeepsValid(db, partner, body, did, now);
      var (captured, c) := Capture(db, partner, body, did, now);
      MarkStepKeepsValid(captured, c.value.deliveryId, Fail);
      EvolvesTransitive(db, captured, Update(captured, c.value.deliveryId, Fail));
      if Process(captured, c.value.deliveryId, now, eid).1.Ok? {
        ProcessKeepsValid(captured, c.value.deliveryId, now, eid);
        EvolvesTransitive(db, captured, Process(captured, c.value.deliveryId, now, eid).0);
      }
    }
  }

  lemma FailedStatus(d: Delivery)
    ensures Alter(d, Fail).status == DELIVERY_FAILED
  {
  }

  /** A repeat of a delivery that has reached a terminal status is answered from it: nothing is processed
      again, and the row only counts one more attempt. */
  lemma TerminalRepeatsAreMirrored(db: Db, partner: string, body: Body, did: string, eid: string, now: int, outage: bool)
    requires FindDelivery(db, partner, ResolveKey(body)).Some?
    requires IsTerminal(db.deliveries[FindDelivery(db, partner, ResolveKey(body)).value].status)
    ensures var id := FindDelivery(db, partner, ResolveKey(body)).value;
      PostWebhook(db, partner, body, did, eid, now, outage) ==
        (Update(db, id, Bump), Ok(Response(StatusCodeFor(db.deliveries[id].status, true), id, true, None)))
  {
  }

  /** The event can be credited at this instant, and has not been. */
  predicate CreditableNow(db: Db, did: string, now: int)
    requires did in db.deliveries
  {
    var d := db.deliveries[did];
    && Acceptable(d.body) && Fresh(d.body.occurredAt, now) && Priceable(db, d.body) && RuleFor(db, d.body).value.points > 0
    && FindKey(db.ledger, PARTNER_PREFIX + d.partner, Some(d.key)).None?
  }

  /** Processing adds a ledger row exactly when the event can be credited now and has not been. */
  lemma ProcessCreditsExactly(db: Db, did: string, now: int, eid: string)
    requires Valid(db) && did in db.deliveries && !HasId(db.ledger, eid)
    ensures var (d, r) := Process(db, did, now, eid);
      && (CreditableNow(db, did, now) ==> r.Ok? && |d.ledger| == |db.ledger| + 1)
      && (r.Ok? && !CreditableNow(db, did, now) ==> d.ledger == db.ledger)
  {
    var body := db.deliveries[did].body;
    if Acceptable(body) {
      KeyIsEventId(db, did);
    }
    hide Valid, Fresh, FindKey, HasId;
    if Acceptable(body) && Fresh(body.occurredAt, now) && Priceable(db, body) {
      var touched := Update(db, did, Touch(body.userRef, body.activityType));
      CreditAdds(touched, did, eid, now);
    }
  }

  lemma CreditAdds(db: Db, did: string, eid: string, at: int)
    requires did in db.deliveries && Priceable(db, db.deliveries[did].body) && !HasId(db.ledger, eid)
    ensures var input := CreditOf(db, db.deliveries[did]);
      var (d, r) := CreditDelivery(db, did, input, eid, at);
      && (r.Ok? <==> input.delta > 0)
      && (r.Ok? ==> d.ledger == if FindKey(db.ledger, input.source, input.eventId).Some? then db.ledger
                                else db.ledger + [NewRow(input, eid, at)])
  {
    CreditSucceedsWhenPositive(db, did, eid, at);
    var input := CreditOf(db, db.deliveries[did]);
    if input.delta > 0 {
      AppendShape(db, input, eid, at);
    }
    hide Append;
  }

  /** The `duplicate` flag of a success does not mean that no points moved just now, as the source says it
      does. Exactly when a flagged success credits: the key was stored before, in no terminal status, and the
      event stored there can be credited now and has not been. */
  lemma DuplicateMayStillCredit(db: Db, partner: string, body: Body, did: string, eid: string, now: int, outage: bool)
    requires Valid(db) && !HasId(db.ledger, eid)
    ensures var (d, r) := PostWebhook(db, partner, body, did, eid, now, outage);
      var stored := FindDelivery(db, partner, ResolveKey(body));
      r.Ok? && r.value.duplicate && |d.ledger| > |db.ledger| <==>
        !outage && stored.Some? && !IsTerminal(db.deliveries[stored.value].status) && CreditableNow(db, stored.value, now)
  {
    hide Valid, Process, FindKey, HasId, Acceptable, Fresh, Evolves, CreditableNow;
    var stored := FindDelivery(db, partner, ResolveKey(body));
    if stored.Some? {
      var captured := Update(db, stored.value, Bump);
      BumpKeepsValid(db, stored.value);
      BumpChangesNothing(db, stored.value, now);
      ProcessCreditsExactly(captured, stored.value, now, eid);
      assert Capture(db, partner, body, did, now).0 == captured;
      var (d, r) := PostWebhook(db, partner, body, did, eid, now, outage);
      if IsTerminal(db.deliveries[stored.value].status) {
        assert d == captured;
      } else if outage {
        assert r.Err?;
      } else {
        assert r.Ok? ==> r.value.duplicate;
        assert r.Ok? ==> d == Process(captured, stored.value, now, eid).0;
      }
    } else if Capture(db, partner, body, did, now).1.Ok? && !outage {
      NewDeliveriesAreNotFlagged(db, partner, body, did, eid, now);
    }
  }

  lemma BumpKeepsValid(db: Db, did: string)
    requires Valid(db) && did in db.deliveries
    ensures Valid(Update(db, did, Bump)) && Update(db, did, Bump).ledger == db.ledger
  {
    hide Valid, Evolves, CreditedFor;
    MarkStepKeepsValid(db, did, Bump);
  }

  lemma BumpChangesNothing(db: Db, did: string, now: int)
    requires did in db.deliveries
    ensures CreditableNow(Update(db, did, Bump), did, now) <==> CreditableNow(db, did, now)
  {
  }

  /** The first delivery of an event is flagged only if the ledger had its key already, and then adds nothing. */
  lemma NewDeliveriesAreNotFlagged(db: Db, partner: string, body: Body, did: string, eid: string, now: int)
    requires FindDelivery(db, partner, ResolveKey(body)).None? && did !in db.deliveries
    ensures var (d, r) := PostWebhook(db, partner, body, did, eid, now, false);
      r.Ok? && r.value.duplicate ==> |d.ledger| == |db.ledger|
  {
    hide Append, Acceptable, Fresh, FindDelivery;
    var captured := Capture(db, partner, body, did, now).0;
    if Process(captured, did, now, eid).1.Ok? && Process(captured, did, now, eid).1.value.Processed? {
      CreditedNowOrBefore(captured, did, now, eid);
    }
  }

  /** A credit just made is exactly one new ledger row; a credit found already made is none. */
  lemma CreditedNowOrBefore(db: Db, did: string, now: int, eid: string)
    requires Process(db, did, now, eid).1.Ok? && Process(db, did, now, eid).1.value.Processed?
    ensures var (d, r) := Process(db, did, now, eid);
      |d.ledger| == |db.ledger| + (if r.value.alreadyCredited then 0 else 1)
  {
    hide Fresh, ResolveRule, Append;
    var body := db.deliveries[did].body;
    var touched := Update(db, did, Touch(body.userRef, body.activityType));
    var rule := ResolveRule(touched.rules, body.activityType, body.occurredAt);
    AppendShape(touched, CreditInput(touched.deliveries[did].partner, body.eventId, touched.users[body.userRef], rule.value), eid, now);
  }

  /** So after an outage, the retry is flagged and credits. */
  lemma OutageThenRetry(db: Db, partner: string, body: Body, did: string, eid: string, now: int, later: int)
    requires Valid(db) && !HasId(db.ledger, eid) && did !in db.deliveries
    requires FindDelivery(db, partner, ResolveKey(body)).None?
    requires Acceptable(body) && Fresh(body.occurredAt, later) && Priceable(db, body) && RuleFor(db, body).value.points > 0
    requires FindKey(db.ledger, PARTNER_PREFIX + partner, Some(ResolveKey(body))).None?
    ensures var failed := PostWebhook(db, partner, body, did, eid, now, true).0;
      var (d, r) := PostWebhook(failed, partner, body, did, eid, later, false);
      && did in failed.deliveries && failed.deliveries[did].status == DELIVERY_FAILED
      && r.Ok? && r.value.duplicate && |d.ledger| == |failed.ledger| + 1
  {
    hide Valid, Process, FindKey, HasId, Evolves, FindDelivery, Acceptable, Fresh;
    var failed := PostWebhook(db, partner, body, did, eid, now, true).0;
    PostWebhookKeepsValid(db, partner, body, did, eid, now, true);
    assert failed.deliveries == db.deliveries[did := Alter(NewDelivery(partner, body, now), Fail)];
    StoredIsFound(failed, did);
    assert CreditableNow(failed, did, later);
    BumpKeepsValid(failed, did);
    BumpChangesNothing(failed, did, later);
    ProcessCreditsExactly(Update(failed, did, Bump), did, later, eid);
  }

  lemma StoredIsFound(db: Db, did: string)
    requires Valid(db) && did in db.deliveries
    ensures FindDelivery(db, db.deliveries[did].partner, db.deliveries[did].key) == Some(did)
  {
    hide LedgerState, RedemptionInv, RulesInv, KeysResolved, EarnsExplained, ProcessedCredited;
    assert Received(db.deliveries[did], db.deliveries[did].partner, db.deliveries[did].key);
  }

  // ----- Backfill -----

  predicate Terminal(db: Db, did: string) {
    did in db.deliveries && IsTerminal(db.deliveries[did].status)
  }

  function Tally(c: Counts): int {
    c.processed + c.stillUnmatched + c.rejected + c.skipped
  }

  /** How far a replay has changed the deliveries: only rows on its list, and only ones it found UNMATCHED. */
  ghost predicate OnlyListed(db: Db, d: Db, dids: seq<string>) {
    && d.deliveries.Keys == db.deliveries.Keys
    && (forall did :: did in db.deliveries ==> SameDelivery(db.deliveries[did], d.deliveries[did]))
    && (forall did :: did in db.deliveries && (did !in dids || db.deliveries[did].status != UNMATCHED) ==>
          d.deliveries[did] == db.deliveries[did])
    && d.users == db.users && d.rules == db.rules
  }

  predicate Distinct(dids: seq<string>) {
    forall i, j :: 0 <= i < j < |dids| ==> dids[i] != dids[j]
  }

  /** Everything a replay that returns guarantees about its list and its counters. */
  ghost predicate Accounts(db: Db, d: Db, dids: seq<string>, before: Counts, after: Counts) {
    && OnlyListed(db, d, dids)
    && after.examined == before.examined
    && Tally(after) == Tally(before) + |dids|
    && forall i :: 0 <= i < |dids| && dids[i] in db.deliveries && db.deliveries[dids[i]].status == UNMATCHED ==>
         Terminal(d, dids[i])
  }

  /** The state and outcome of claiming and processing one candidate. */
  function ReplayOne(db: Db, did: string, now: int, eid: string): (Db, Result<Outcome>)
    requires did in db.deliveries
  {
    Process(Update(db, did, Reclaim), did, now, eid)
  }

  lemma ReplayedOne(db: Db, did: string, now: int, eid: string)
    requires did in db.deliveries && ReplayOne(db, did, now, eid).1.Ok?
    ensures OnlyDelivery(db, ReplayOne(db, did, now, eid).0, did) && Terminal(ReplayOne(db, did, now, eid).0, did)
  {
    hide Process, OnlyDelivery, Alter;
    UpdateTouchesOne(db, did, Reclaim);
    ProcessTouchesOne(Update(db, did, Reclaim), did, now, eid);
    OnlyDeliveryTwice(db, Update(db, did, Reclaim), ReplayOne(db, did, now, eid).0, did);
    DeliveryStands(db, ReplayOne(db, did, now, eid).0, did);
  }

  lemma DeliveryStands(db: Db, d: Db, did: string)
    requires OnlyDelivery(db, d, did)
    ensures did in d.deliveries
  {
  }

  lemma ListedExtends(db: Db, mid: Db, d: Db, did: string, rest: seq<string>)
    requires OnlyDelivery(db, mid, did) && OnlyListed(mid, d, rest)
    requires db.deliveries[did].status == UNMATCHED && did !in rest
    ensures OnlyListed(db, d, [did] + rest)
    ensures d.deliveries[did] == mid.deliveries[did]
  {
  }

  lemma ListedSkips(db: Db, d: Db, did: string, rest: seq<string>)
    requires OnlyListed(db, d, rest) && did !in rest
    ensures OnlyListed(db, d, [did] + rest)
  {
  }

  lemma {:induction false} ReplayKeepsCount(db: Db, dids: seq<string>, c: Counts, clock: string -> int, ids: string -> string)
    requires Distinct(dids) && Replay(db, dids, c, clock, ids).1.Ok?
    ensures var (d, r) := Replay(db, dids, c, clock, ids); Accounts(db, d, dids, c, r.value)
    decreases |dids|
  {
    hide Process, OnlyDelivery, OnlyListed, Update, IsTerminal;
    if dids == [] {
      NothingListed(db);
    } else {
      var did, rest := dids[0], dids[1..];
      assert dids == [did] + rest && did !in rest;
      var (d, r) := Replay(db, dids, c, clock, ids);
      if did !in db.deliveries || db.deliveries[did].status != UNMATCHED {
        ReplayKeepsCount(db, rest, c.(skipped := c.skipped + 1), clock, ids);
        ListedSkips(db, d, did, rest);
      } else {
        var (mid, outcome) := ReplayOne(db, did, clock(did), ids(did));
        ReplayedOne(db, did, clock(did), ids(did));
        ReplayKeepsCount(mid, rest, Count(c, outcome.value), clock, ids);
        ListedExtends(db, mid, d, did, rest);
        RestStaysClaimed(db, mid, did, rest);
        ListedKeys(mid, d, rest);
      }
    }
  }

  lemma NothingListed(db: Db)
    ensures OnlyListed(db, db, [])
  {
  }

  lemma ListedKeys(db: Db, d: Db, dids: seq<string>)
    requires OnlyListed(db, d, dids)
    ensures d.deliveries.Keys == db.deliveries.Keys
  {
  }

  lemma RestStaysClaimed(db: Db, mid: Db, did: string, rest: seq<string>)
    requires OnlyDelivery(db, mid, did) && did !in rest
    ensures mid.deliveries.Keys == db.deliveries.Keys
    ensures forall x :: x in rest && x in db.deliveries ==> mid.deliveries[x] == db.deliveries[x]
  {
  }

  /** When a backfill returns: the counters add up, every delivery it claimed has left the queue or is
      parked again, and no delivery outside the filter was touched. `listed` is the database its candidate
      list was read from, which may be older than the one its claims run on. */
  lemma BackfillAccountsForEveryCandidate(listed: Db, db: Db, f: Filter, dids: seq<string>, clock: string -> int, ids: string -> string)
    requires Candidates(listed, f, dids) && Backfill(db, f, dids, clock, ids).1.Ok?
    ensures var (d, r) := Backfill(db, f, dids, clock, ids);
      && r.value.examined == r.value.processed + r.value.stillUnmatched + r.value.rejected + r.value.skipped
      && r.value.examined == |dids|
      && (forall did :: did in dids && did in db.deliveries && db.deliveries[did].status == UNMATCHED ==>
            did in d.deliveries && d.deliveries[did].status in {PROCESSED, UNMATCHED, REJECTED})
      && d.deliveries.Keys == db.deliveries.Keys
      && (forall did :: did in db.deliveries && !(did in listed.deliveries && Selects(f, listed.deliveries[did])) ==>
            d.deliveries[did] == db.deliveries[did])
  {
    hide Replay, Selects;
    ReplayKeepsCount(db, dids, Counts(|dids|, 0, 0, 0, 0), clock, ids);
  }

  lemma {:induction false} ReplayKeepsValid(db: Db, dids: seq<string>, c: Counts, clock: string -> int, ids: string -> string)
    requires Valid(db) && Replay(db, dids, c, clock, ids).1.Ok?
    ensures Valid(Replay(db, dids, c, clock, ids).0) && Evolves(db, Replay(db, dids, c, clock, ids).0)
    decreases |dids|
  {
    hide Valid, Evolves, Process, CreditedFor;
    if dids == [] {
      EvolvesReflexive(db);
    } else if dids[0] !in db.deliveries || db.deliveries[dids[0]].status != UNMATCHED {
      ReplayKeepsValid(db, dids[1..], c.(skipped := c.skipped + 1), clock, ids);
    } else {
      var claimed := Update(db, dids[0], Reclaim);
      MarkStepKeepsValid(db, dids[0], Reclaim);
      var (mid, r) := Process(claimed, dids[0], clock(dids[0]), ids(dids[0]));
      ProcessKeepsValid(claimed, dids[0], clock(dids[0]), ids(dids[0]));
      ReplayKeepsValid(mid, dids[1..], Count(c, r.value), clock, ids);
      EvolvesTransitive(db, claimed, mid);
      EvolvesTransitive(db, mid, Replay(mid, dids[1..], Count(c, r.value), clock, ids).0);
    }
  }
}
