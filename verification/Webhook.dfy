/** Webhook ingestion: capture what arrived, decide later what it is worth, credit it at most once. */
module Webhook {
  import opened Schema
  import opened Earning
  import opened Ledger

  const MAX_EVENT_AGE_MS := 90 * 24 * 60 * 60 * 1000
  const MAX_EVENT_FUTURE_MS := 60 * 60 * 1000
  const UNPARSED_PREFIX := "unparsed:"

  // ----- Capture -----

  /** The key a body is stored under: its event id if it carries a usable one, else its digest. */
  function ResolveKey(body: Body): string {
    match body
    case Malformed(digest) => UNPARSED_PREFIX + digest
    case Invalid(field, digest) =>
      if field.Some? && field.value != "" then field.value else UNPARSED_PREFIX + digest
    case Event(id, _, _, _, _, digest) => if id != "" then id else UNPARSED_PREFIX + digest
  }

  datatype Captured = Captured(deliveryId: string, key: string, duplicate: bool, status: DeliveryStatus)

  predicate Received(d: Delivery, partner: string, key: string) {
    d.partner == partner && d.key == key
  }

  ghost function FindDelivery(db: Db, partner: string, key: string): (r: Option<string>)
    ensures r.Some? ==> r.value in db.deliveries && Received(db.deliveries[r.value], partner, key)
    ensures r.None? ==> forall did :: did in db.deliveries ==> !Received(db.deliveries[did], partner, key)
  {
    if did :| did in db.deliveries && Received(db.deliveries[did], partner, key) then Some(did) else None
  }

  function NewDelivery(partner: string, body: Body, at: int): Delivery {
    Delivery(partner, ResolveKey(body), RECEIVED, None, body, None, None, 1, at)
  }

  /** Every update the service makes to a delivery row. */
  datatype Change =
    | Bump
    | Touch(userRef: string, activityType: string)
    | Reject
    | Park(reason: UnmatchedReason)
    | Credited
    | Fail
    | Reclaim

  function Alter(d: Delivery, c: Change): Delivery {
    match c
    case Bump => d.(attempts := d.attempts + 1)
    case Touch(userRef, activityType) => d.(userRef := Some(userRef), activityType := Some(activityType))
    case Reject => d.(status := REJECTED)
    case Park(reason) => d.(status := UNMATCHED, reason := Some(reason))
    case Credited => d.(status := PROCESSED, reason := None)
    case Fail => d.(status := DELIVERY_FAILED)
    case Reclaim => d.(status := RECEIVED, reason := None)
  }

  function Update(db: Db, did: string, c: Change): Db
    requires did in db.deliveries
  {
    db.(deliveries := db.deliveries[did := Alter(db.deliveries[did], c)])
  }

  ghost function Capture(db: Db, partner: string, body: Body, did: string, at: int): (Db, Result<Captured>) {
    var key := ResolveKey(body);
    var seen := FindDelivery(db, partner, key);
    if seen.Some? then
      (Update(db, seen.value, Bump), Ok(Captured(seen.value, key, true, db.deliveries[seen.value].status)))
    else if did in db.deliveries then (db, Err(UniqueViolation))
    else
      (db.(deliveries := db.deliveries[did := NewDelivery(partner, body, at)]),
       Ok(Captured(did, key, false, RECEIVED)))
  }

  // ----- Process -----

  datatype Outcome =
    | Processed(transactionId: string, points: int, balanceAfter: int, alreadyCredited: bool)
    | Parked(reason: UnmatchedReason)
    | Rejected

  /** The body parses, satisfies the event schema, and holds no NUL character. */
  predicate Acceptable(body: Body) {
    body.Event? && body.eventId != "" && body.userRef != "" && body.activityType != "" && !body.hasNul
  }

  predicate Fresh(occurredAt: int, now: int) {
    now - occurredAt <= MAX_EVENT_AGE_MS && occurredAt - now <= MAX_EVENT_FUTURE_MS
  }

  function CreditInput(partner: string, eventId: string, userId: string, rule: Rule): AppendInput {
    AppendInput(userId, rule.points, EARN, PARTNER_PREFIX + partner, Some(eventId), None, Some(rule.id), None, true)
  }

  /** Interpret a captured delivery. The status is never consulted, only written. */
  function Process(db: Db, did: string, now: int, eid: string): (Db, Result<Outcome>) {
    if did !in db.deliveries then (db, Err(DeliveryNotFound(did)))
    else
      var body := db.deliveries[did].body;
      if !Acceptable(body) then (Update(db, did, Reject), Ok(Rejected))
      else Price(Update(db, did, Touch(body.userRef, body.activityType)), did, now, eid)
  }

  /** The part of processing after the body has been accepted. */
  function Price(db: Db, did: string, now: int, eid: string): (Db, Result<Outcome>)
    requires did in db.deliveries && Acceptable(db.deliveries[did].body)
  {
    var body := db.deliveries[did].body;
    if !Fresh(body.occurredAt, now) then (Update(db, did, Reject), Ok(Rejected))
    else if body.userRef !in db.users then (Update(db, did, Park(UNKNOWN_USER)), Ok(Parked(UNKNOWN_USER)))
    else
      var rule := ResolveRule(db.rules, body.activityType, body.occurredAt);
      if rule.None? then (Update(db, did, Park(NO_RULE)), Ok(Parked(NO_RULE)))
      else CreditDelivery(db, did, CreditInput(db.deliveries[did].partner, body.eventId, db.users[body.userRef], rule.value), eid, now)
  }

  /** The ledger entry and the terminal status, together. */
  function CreditDelivery(db: Db, did: string, input: AppendInput, eid: string, at: int): (Db, Result<Outcome>)
    requires did in db.deliveries
  {
    var (d, r) := Append(db, input, eid, at);
    if r.Err? then (d, Err(r.error))
    else (Update(d, did, Credited),
          Ok(Processed(r.value.transactionId, input.delta, r.value.balanceAfter, r.value.duplicate)))
  }

  // ----- Backfill -----

  datatype Filter = Filter(userRef: Option<string>, activityType: Option<string>)

  predicate Selects(f: Filter, d: Delivery) {
    && d.status == UNMATCHED
    && (f.userRef.Some? ==> d.userRef == f.userRef)
    && (f.activityType.Some? ==> d.activityType == f.activityType)
  }

  /** The result of the candidate query: every selected delivery once, oldest first. */
  ghost predicate Candidates(db: Db, f: Filter, dids: seq<string>) {
    && (forall i :: 0 <= i < |dids| ==> dids[i] in db.deliveries && Selects(f, db.deliveries[dids[i]]))
    && (forall did :: did in db.deliveries && Selects(f, db.deliveries[did]) ==> did in dids)
    && (forall i, j :: 0 <= i < j < |dids| ==> dids[i] != dids[j])
    && (forall i, j :: 0 <= i < j < |dids| ==> db.deliveries[dids[i]].receivedAt <= db.deliveries[dids[j]].receivedAt)
  }

  datatype Counts = Counts(examined: nat, processed: nat, stillUnmatched: nat, rejected: nat, skipped: nat)

  function Count(c: Counts, r: Outcome): Counts {
    match r
    case Processed(_, _, _, _) => c.(processed := c.processed + 1)
    case Parked(_) => c.(stillUnmatched := c.stillUnmatched + 1)
    case Rejected => c.(rejected := c.rejected + 1)
  }

  /** Claim and replay candidates one by one. The list may be stale by the time a claim runs: a delivery
      that is no longer UNMATCHED is skipped. An error abandons the whole transaction. */
  function Replay(db: Db, dids: seq<string>, c: Counts, clock: string -> int, ids: string -> string): (Db, Result<Counts>)
    decreases |dids|
  {
    if dids == [] then (db, Ok(c))
    else if dids[0] !in db.deliveries || db.deliveries[dids[0]].status != UNMATCHED then
      Replay(db, dids[1..], c.(skipped := c.skipped + 1), clock, ids)
    else
      var (d, r) := Process(Update(db, dids[0], Reclaim), dids[0], clock(dids[0]), ids(dids[0]));
      if r.Err? then (d, Err(r.error))
      else Replay(d, dids[1..], Count(c, r.value), clock, ids)
  }

  function Backfill(db: Db, f: Filter, dids: seq<string>, clock: string -> int, ids: string -> string): (Db, Result<Counts>) {
    if f.userRef.None? && f.activityType.None? then (db, Err(FilterRequired))
    else Replay(db, dids, Counts(|dids|, 0, 0, 0, 0), clock, ids)
  }

  // ----- The route -----

  predicate IsTerminal(s: DeliveryStatus) {
    s == PROCESSED || s == UNMATCHED || s == REJECTED
  }

  function StatusCodeFor(s: DeliveryStatus, mirrored: bool): int {
    if s == REJECTED then 400 else if s == UNMATCHED then 202 else if mirrored then 200 else 202
  }

  function StatusOf(r: Outcome): DeliveryStatus {
    match r
    case Processed(_, _, _, _) => PROCESSED
    case Parked(_) => UNMATCHED
    case Rejected => REJECTED
  }

  datatype Response = Response(code: int, deliveryId: string, duplicate: bool, outcome: Option<Outcome>)

  /** Capture and process, each its own transaction; `outage` is any failure of the second that is not ours to model. */
  ghost function PostWebhook(db: Db, partner: string, body: Body, did: string, eid: string, now: int, outage: bool)
    : (Db, Result<Response>)
  {
    var (captured, c) := Capture(db, partner, body, did, now);
    if c.Err? then (db, Err(c.error))
    else if c.value.duplicate && IsTerminal(c.value.status) then
      (captured, Ok(Response(StatusCodeFor(c.value.status, true), c.value.deliveryId, true, None)))
    else
      var (done, r) := if outage then (captured, Err(Infrastructure)) else Process(captured, c.value.deliveryId, now, eid);
      if r.Err? then (Update(captured, c.value.deliveryId, Fail), Err(r.error))
      else
        (done, Ok(Response(StatusCodeFor(StatusOf(r.value), false), c.value.deliveryId,
                           c.value.duplicate || (r.value.Processed? && r.value.alreadyCredited), Some(r.value))))
  }

  // ----- What every run keeps -----

  /** The ledger row is this delivery's credit: its user, its key, and the rule in force when it happened. */
  predicate EarnedBy(db: Db, e: Entry, d: Delivery) {
    && Acceptable(d.body)
    && e.kind == EARN
    && e.source == PARTNER_PREFIX + d.partner
    && e.eventId == Some(d.key)
    && d.body.userRef in db.users && e.userId == db.users[d.body.userRef]
    && PricedBy(db.rules, e, d.body)
  }

  predicate PricedBy(rules: seq<Rule>, e: Entry, body: Body)
    requires body.Event?
  {
    var rule := ResolveRule(rules, body.activityType, body.occurredAt);
    rule.Some? && e.ruleId == Some(rule.value.id) && e.delta == rule.value.points
  }

  ghost predicate DeliveriesUnique(db: Db) {
    forall a, b | a in db.deliveries && b in db.deliveries ::
      Received(db.deliveries[a], db.deliveries[b].partner, db.deliveries[b].key) ==> a == b
  }

  ghost predicate KeysResolved(db: Db) {
    forall did :: did in db.deliveries ==> db.deliveries[did].key == ResolveKey(db.deliveries[did].body)
  }

  ghost predicate Explained(db: Db, e: Entry) {
    exists did :: did in db.deliveries && EarnedBy(db, e, db.deliveries[did])
  }

  ghost predicate CreditedFor(db: Db, d: Delivery) {
    exists i :: 0 <= i < |db.ledger| && EarnedBy(db, db.ledger[i], d)
  }

  ghost predicate EarnsExplained(db: Db) {
    forall i :: 0 <= i < |db.ledger| && db.ledger[i].kind == EARN ==> Explained(db, db.ledger[i])
  }

  ghost predicate ProcessedCredited(db: Db) {
    forall did :: did in db.deliveries && db.deliveries[did].status == PROCESSED ==> CreditedFor(db, db.deliveries[did])
  }

  ghost predicate DeliveryInv(db: Db) {
    KeysResolved(db) && DeliveriesUnique(db) && EarnsExplained(db) && ProcessedCredited(db)
  }

  // ----- Preservation -----

  /** The database only grew in ways that cannot unexplain a credit. */
  ghost predicate KeepsCredits(db: Db, d: Db) {
    && db.ledger <= d.ledger
    && (forall ref :: ref in db.users ==> ref in d.users && d.users[ref] == db.users[ref])
    && db.rules <= d.rules && NoClash(d.rules)
    && (forall did :: did in db.deliveries ==> did in d.deliveries && SameDelivery(db.deliveries[did], d.deliveries[did]))
  }

  predicate SameDelivery(a: Delivery, b: Delivery) {
    a.partner == b.partner && a.key == b.key && a.body == b.body
  }

  lemma EarnedByStable(db: Db, d: Db, e: Entry, a: Delivery, b: Delivery)
    requires KeepsCredits(db, d) && EarnedBy(db, e, a) && SameDelivery(a, b)
    ensures EarnedBy(d, e, b)
  {
    assert d.rules == db.rules + d.rules[|db.rules|..];
    AddingRulesKeepsPrices(db.rules, d.rules[|db.rules|..], a.body.activityType, a.body.occurredAt);
  }

  lemma ExplainedStable(db: Db, d: Db, e: Entry)
    requires KeepsCredits(db, d) && Explained(db, e)
    ensures Explained(d, e)
  {
    hide EarnedBy, SameDelivery;
    var did :| did in db.deliveries && EarnedBy(db, e, db.deliveries[did]);
    EarnedByStable(db, d, e, db.deliveries[did], d.deliveries[did]);
  }

  lemma CreditedStable(db: Db, d: Db, a: Delivery, b: Delivery)
    requires KeepsCredits(db, d) && CreditedFor(db, a) && SameDelivery(a, b)
    ensures CreditedFor(d, b)
  {
    hide EarnedBy, SameDelivery, NoClash;
    var i :| 0 <= i < |db.ledger| && EarnedBy(db, db.ledger[i], a);
    EarnedByStable(db, d, db.ledger[i], a, b);
    assert d.ledger[i] == db.ledger[i];
  }

  /** Growth that explains its new EARN rows, and credits what it newly marks PROCESSED, keeps the credits. */
  lemma GrowthKeepsCredits(db: Db, d: Db)
    requires EarnsExplained(db) && ProcessedCredited(db) && KeepsCredits(db, d)
    requires forall i :: |db.ledger| <= i < |d.ledger| && d.ledger[i].kind == EARN ==> Explained(d, d.ledger[i])
    requires forall did :: did in d.deliveries && d.deliveries[did].status == PROCESSED ==>
      (did in db.deliveries && db.deliveries[did].status == PROCESSED) || CreditedFor(d, d.deliveries[did])
    ensures EarnsExplained(d) && ProcessedCredited(d)
  {
    hide Explained, CreditedFor, SameDelivery, NoClash;
    forall i | 0 <= i < |d.ledger| && d.ledger[i].kind == EARN ensures Explained(d, d.ledger[i]) {
      if i < |db.ledger| {
        assert d.ledger[i] == db.ledger[i];
        ExplainedStable(db, d, d.ledger[i]);
      }
    }
    forall did | did in d.deliveries && d.deliveries[did].status == PROCESSED ensures CreditedFor(d, d.deliveries[did]) {
      if did in db.deliveries && db.deliveries[did].status == PROCESSED {
        CreditedStable(db, d, db.deliveries[did], d.deliveries[did]);
      }
    }
  }

  lemma AlterKeepsIdentity(d: Delivery, c: Change)
    ensures SameDelivery(d, Alter(d, c))
    ensures Alter(d, c).status == PROCESSED ==> c == Credited || d.status == PROCESSED
  {
  }

  lemma UpdateKeepsUnique(db: Db, did: string, c: Change)
    requires KeysResolved(db) && DeliveriesUnique(db) && did in db.deliveries
    ensures KeysResolved(Update(db, did, c)) && DeliveriesUnique(Update(db, did, c))
  {
    AlterKeepsIdentity(db.deliveries[did], c);
  }

  lemma UpdateKeepsDeliveries(db: Db, did: string, c: Change)
    requires DeliveryInv(db) && NoClash(db.rules) && did in db.deliveries
    requires c == Credited ==> CreditedFor(db, db.deliveries[did])
    ensures DeliveryInv(Update(db, did, c))
  {
    hide Explained, CreditedFor, NoClash, EarnsExplained, ProcessedCredited;
    UpdateKeepsUnique(db, did, c);
    hide KeysResolved, DeliveriesUnique;
    var d := Update(db, did, c);
    AlterKeepsIdentity(db.deliveries[did], c);
    assert KeepsCredits(db, d);
    if c == Credited {
      CreditedStable(db, d, db.deliveries[did], d.deliveries[did]);
    }
    GrowthKeepsCredits(db, d);
  }

  lemma PostKeepsDeliveries(db: Db, e: Entry)
    requires DeliveryInv(db) && NoClash(db.rules)
    requires e.kind == EARN ==> Explained(db, e)
    ensures DeliveryInv(Post(db, e))
  {
    hide Explained, CreditedFor, NoClash, EarnsExplained, ProcessedCredited;
    var d := Post(db, e);
    assert KeysResolved(d) && DeliveriesUnique(d);
    hide KeysResolved, DeliveriesUnique;
    assert KeepsCredits(db, d);
    if e.kind == EARN {
      ExplainedStable(db, d, e);
    }
    GrowthKeepsCredits(db, d);
  }

  /** A row already holding a delivery's dedupe key is that delivery's own credit. */
  lemma KeyHolderIsOwnCredit(db: Db, did: string, i: nat)
    requires DeliveryInv(db) && LedgerInv(db.ledger)
    requires did in db.deliveries && i < |db.ledger|
    requires HoldsKey(db.ledger[i], PARTNER_PREFIX + db.deliveries[did].partner, Some(db.deliveries[did].key))
    ensures EarnedBy(db, db.ledger[i], db.deliveries[did])
  {
    assert WellLabelled(db.ledger[i]);
    assert PARTNER_PREFIX <= PARTNER_PREFIX + db.deliveries[did].partner;
    var other :| other in db.deliveries && EarnedBy(db, db.ledger[i], db.deliveries[other]);
    assert (PARTNER_PREFIX + db.deliveries[other].partner)[|PARTNER_PREFIX|..] == db.deliveries[other].partner;
    assert (PARTNER_PREFIX + db.deliveries[did].partner)[|PARTNER_PREFIX|..] == db.deliveries[did].partner;
    assert Received(db.deliveries[other], db.deliveries[did].partner, db.deliveries[did].key);
  }
}
