/** The transactions as atomic steps on the whole database, the invariant they keep, and the ways the
    database may only ever evolve. */
module Atoms {
  import opened Schema
  import opened Earning
  import opened Ledger
  import opened Redeeming
  import opened Webhook

  /** One atomic step. A transaction runs one of these, or, for webhook processing, several in a row. */
  datatype Atom =
    | AtomAppend(input: AppendInput, id: string, at: int)
    | AtomReserve(rid: string, row: Redemption, limited: bool, eid: string, at: int)
    | AtomReplay(rid: string)
    | AtomFulfil(rid: string, ref: string)
    | AtomCompensate(v: Reservation, reason: string, original: Entry, eid: string, at: int)
    | AtomArrive(did: string, delivery: Delivery)
    | AtomMark(did: string, change: Change)
    | AtomCredit(did: string, input: AppendInput, eid: string, at: int)

  ghost predicate Succeeds(a: Atom, db: Db) {
    match a
    case AtomAppend(input, id, at) => Append(db, input, id, at).1.Ok?
    case AtomReserve(rid, row, limited, eid, at) =>
      var r := ReserveWith(db, rid, row, limited, eid, at).1;
      r.Ok? && r.value.Claimed?
    case AtomReplay(rid) => rid in db.redemptions
    case AtomFulfil(rid, _) => rid in db.redemptions
    case AtomCompensate(v, reason, _, eid, at) => Compensate(db, v, reason, eid, at).1 == Ok(true)
    case AtomArrive(did, d) => did !in db.deliveries && FindDelivery(db, d.partner, d.key).None?
    case AtomMark(did, c) => did in db.deliveries && (c == Reclaim ==> db.deliveries[did].status == UNMATCHED)
    case AtomCredit(did, input, eid, at) => did in db.deliveries && CreditDelivery(db, did, input, eid, at).1.Ok?
  }

  ghost function Effect(a: Atom, db: Db): Db
    requires Succeeds(a, db)
  {
    match a
    case AtomAppend(input, id, at) => Append(db, input, id, at).0
    case AtomReserve(rid, row, limited, eid, at) => ReserveWith(db, rid, row, limited, eid, at).0
    case AtomReplay(_) => db
    case AtomFulfil(rid, ref) => Fulfil(db, rid, ref)
    case AtomCompensate(v, reason, _, eid, at) => Compensate(db, v, reason, eid, at).0
    case AtomArrive(did, d) => db.(deliveries := db.deliveries[did := d])
    case AtomMark(did, change) => Update(db, did, change)
    case AtomCredit(did, input, eid, at) => CreditDelivery(db, did, input, eid, at).0
  }

  /** An operator's own entry: no partner and no reversal writes it. */
  predicate OperatorInput(input: AppendInput) {
    && input.kind == ADJUSTMENT
    && input.source != REVERSAL_SOURCE && !(PARTNER_PREFIX <= input.source)
    && input.redemptionId.None? && input.ruleId.None? && input.reversesId.None?
    && input.enforceNonNegative
  }

  /** Taking back a credit. */
  ghost predicate Clawback(l: seq<Entry>, input: AppendInput) {
    exists i :: 0 <= i < |l| && l[i].kind in {EARN, ADJUSTMENT} && input == ReversalOf(l[i])
  }

  /** What the code has established, by reads that take no lock, before it runs a step. */
  ghost predicate Admissible(a: Atom, db: Db) {
    match a
    case AtomAppend(input, _, _) => OperatorInput(input) || Clawback(db.ledger, input)
    case AtomReserve(_, row, limited, _, _) =>
      && row.status == RESERVED && row.cost > 0
      && row.rewardId in db.rewards && (limited <==> db.rewards[row.rewardId].stock.Some?)
    case AtomReplay(_) => true
    case AtomFulfil(rid, _) => rid in db.redemptions
    case AtomCompensate(v, _, o, _, _) =>
      && v.redemptionId in db.redemptions && v.rewardId == db.redemptions[v.redemptionId].rewardId
      && o in db.ledger && o.id == v.entryId && DebitFor(o, v.redemptionId, db.redemptions[v.redemptionId])
    case AtomArrive(_, d) => d.status == RECEIVED && d.key == ResolveKey(d.body)
    case AtomMark(did, change) => did in db.deliveries && change != Credited
    case AtomCredit(did, input, _, _) => did in db.deliveries && CreditResolved(db, db.deliveries[did], input)
  }

  predicate CreditResolved(db: Db, d: Delivery, input: AppendInput) {
    && Acceptable(d.body)
    && d.body.userRef in db.users
    && var rule := ResolveRule(db.rules, d.body.activityType, d.body.occurredAt);
       rule.Some? && input == CreditInput(d.partner, d.body.eventId, db.users[d.body.userRef], rule.value)
  }

  // ----- The invariant -----

  ghost predicate Valid(db: Db) {
    LedgerState(db) && RedemptionInv(db) && DeliveryInv(db) && RulesInv(db.rules)
  }

  lemma EmptyIsValid()
    ensures Valid(EMPTY_DB)
  {
    assert forall u :: Sum([], ByUser(u)) == 0 && Sum([], Clawed(u)) == 0;
  }

  // ----- How the database may evolve -----

  /** The same redemption, later: its snapshots and its claim never change, and a terminal status is final. */
  predicate LaterRedemption(a: Redemption, b: Redemption) {
    && a.(status := b.status, fulfillmentRef := b.fulfillmentRef, failureReason := b.failureReason) == b
    && (a.status != RESERVED ==> b.status == a.status)
  }

  ghost predicate Evolves(db: Db, d: Db) {
    && db.ledger <= d.ledger
    && db.rules <= d.rules
    && (forall ref :: ref in db.users ==> ref in d.users && d.users[ref] == db.users[ref])
    && (forall u :: u in db.balances ==> u in d.balances)
    && (forall rid :: rid in db.redemptions ==> rid in d.redemptions && LaterRedemption(db.redemptions[rid], d.redemptions[rid]))
    && (forall did :: did in db.deliveries ==> did in d.deliveries && SameDelivery(db.deliveries[did], d.deliveries[did]))
    && StockConserved(db, d)
  }

  lemma EvolvesReflexive(db: Db)
    ensures Evolves(db, db)
  {
  }

  lemma MarksAreNotCredits(a: Atom, db: Db)
    requires Admissible(a, db) && a.AtomMark?
    ensures a.change != Credited
  {
  }

  lemma EvolvesTransitive(a: Db, b: Db, c: Db)
    requires Evolves(a, b) && Evolves(b, c)
    ensures Evolves(a, c)
  {
    assert a.ledger <= c.ledger;
    assert a.rules <= c.rules;
  }

  // ----- Facts read without a lock stay true -----

  lemma AdmissibleStable(a: Atom, db: Db, d: Db)
    requires Admissible(a, db) && Evolves(db, d) && NoClash(d.rules)
    ensures Admissible(a, d)
  {
    hide NoClash, Units, HoldsClaim;
    match a
    case AtomAppend(input, _, _) =>
      if !OperatorInput(input) {
        var i :| 0 <= i < |db.ledger| && db.ledger[i].kind in {EARN, ADJUSTMENT} && input == ReversalOf(db.ledger[i]);
        assert d.ledger[i] == db.ledger[i];
      }
    case AtomReserve(_, _, _, _, _) =>
    case AtomReplay(_) =>
    case AtomFulfil(_, _) =>
    case AtomCompensate(v, _, o, _, _) =>
      var i :| 0 <= i < |db.ledger| && db.ledger[i] == o;
      assert d.ledger[i] == o;
    case AtomArrive(_, _) =>
    case AtomMark(_, _) =>
    case AtomCredit(did, _, _, _) =>
      var body := db.deliveries[did].body;
      assert d.rules == db.rules + d.rules[|db.rules|..];
      AddingRulesKeepsPrices(db.rules, d.rules[|db.rules|..], body.activityType, body.occurredAt);
  }

  // ----- Each table's invariant ignores the other tables -----

  lemma RedemptionsIgnoreOthers(db: Db, d: Db)
    requires RedemptionInv(db)
    requires d.ledger == db.ledger && d.redemptions == db.redemptions && d.rewards == db.rewards
    ensures RedemptionInv(d) && StockConserved(db, d)
  {
    hide Accounted;
    assert TagsSound(d);
    assert ClaimsUnique(d);
  }

  lemma LedgerIgnoresOthers(db: Db, d: Db)
    requires LedgerState(db)
    requires d.ledger == db.ledger && d.balances == db.balances && d.users == db.users
    ensures LedgerState(d)
  {
    assert forall u :: Balance(d, u) == Balance(db, u);
  }

  /** No EARN row was added and no delivery changed. */
  lemma DeliveriesIgnoreOthers(db: Db, d: Db)
    requires DeliveryInv(db) && RulesInv(db.rules)
    requires d.users == db.users && d.rules == db.rules && d.deliveries == db.deliveries
    requires d.ledger == db.ledger || (exists e: Entry :: e.kind != EARN && d.ledger == db.ledger + [e])
    ensures DeliveryInv(d)
  {
    hide Explained, CreditedFor, EarnsExplained, ProcessedCredited;
    assert KeysResolved(d) && DeliveriesUnique(d);
    hide KeysResolved, DeliveriesUnique;
    assert KeepsCredits(db, d);
    GrowthKeepsCredits(db, d);
  }

  // ----- Every step keeps the invariant -----

  lemma OperatorInputIsSound(l: seq<Entry>, input: AppendInput)
    requires OperatorInput(input)
    ensures InputSound(l, input)
  {
  }

  lemma ClawbackIsSound(l: seq<Entry>, input: AppendInput)
    requires Clawback(l, input)
    ensures InputSound(l, input)
  {
    assert PARTNER_PREFIX[0] == 'p' && REVERSAL_SOURCE[0] == 'r';
  }

  lemma DebitIsSound(l: seq<Entry>, rid: string, row: Redemption)
    ensures InputSound(l, DebitInput(rid, row))
  {
    assert PARTNER_PREFIX[0] == 'p' && REDEMPTION_SOURCE[0] == 'r' && |REDEMPTION_SOURCE| != |REVERSAL_SOURCE|;
  }

  lemma CreditIsSound(l: seq<Entry>, partner: string, eventId: string, userId: string, rule: Rule)
    ensures InputSound(l, CreditInput(partner, eventId, userId, rule))
  {
    assert PARTNER_PREFIX[0] == 'p' && REVERSAL_SOURCE[0] == 'r';
    assert PARTNER_PREFIX <= PARTNER_PREFIX + partner;
  }

  lemma RulesDoNotClash(db: Db)
    requires RulesInv(db.rules)
    ensures NoClash(db.rules)
  {
  }

  lemma AppendInputIsSound(db: Db, input: AppendInput, id: string, at: int)
    requires Admissible(AtomAppend(input, id, at), db)
    ensures InputSound(db.ledger, input)
  {
    if OperatorInput(input) {
      OperatorInputIsSound(db.ledger, input);
    } else {
      ClawbackIsSound(db.ledger, input);
    }
  }

  /** A clawback never touches a redemption's account. */
  lemma AppendIsUntagged(db: Db, input: AppendInput, id: string, at: int)
    requires LedgerInv(db.ledger) && TagsSound(db) && Admissible(AtomAppend(input, id, at), db)
    ensures var e := NewRow(input, id, at);
      && e.redemptionId.None? && e.kind != REDEEM && e.kind != EARN
      && forall i :: 0 <= i < |db.ledger| && db.ledger[i].kind == REDEEM ==> e.reversesId != Some(db.ledger[i].id)
  {
    hide WellLabelled, UndoesEarlier, DistinctKeys;
  }

  lemma AppendKeepsRedemptions(db: Db, input: AppendInput, id: string, at: int)
    requires LedgerState(db) && RedemptionInv(db)
    requires Admissible(AtomAppend(input, id, at), db) && Append(db, input, id, at).1.Ok?
    ensures RedemptionInv(Append(db, input, id, at).0) && StockConserved(db, Append(db, input, id, at).0)
  {
    AppendIsUntagged(db, input, id, at);
    hide LedgerState, TagsSound, AllAccounted, ClaimsUnique, RowsSound, Append, Admissible, StockConserved;
    AppendShape(db, input, id, at);
    var m := Materialise(db, input.userId);
    RedemptionsIgnoreOthers(db, m);
    StockIgnoresOthers(db, Append(db, input, id, at).0);
    if !Append(db, input, id, at).1.value.duplicate {
      UntaggedPostKeeps(m, NewRow(input, id, at));
    }
  }

  lemma AppendStepKeepsValid(db: Db, input: AppendInput, id: string, at: int)
    requires Valid(db) && Admissible(AtomAppend(input, id, at), db) && Append(db, input, id, at).1.Ok?
    ensures Valid(Append(db, input, id, at).0) && Evolves(db, Append(db, input, id, at).0)
  {
    hide LedgerState, RedemptionInv, DeliveryInv, RulesInv, StockConserved, InputSound, Append, Admissible, FindKey, HasId, Materialise;
    AppendKeepsRedemptions(db, input, id, at);
    AppendInputIsSound(db, input, id, at);
    AppendKeepsLedger(db, input, id, at);
    AppendShape(db, input, id, at);
    AppendIsNotEarn(db, input, id, at);
    DeliveriesIgnoreOthers(db, Append(db, input, id, at).0);
  }

  lemma AppendIsNotEarn(db: Db, input: AppendInput, id: string, at: int)
    requires Admissible(AtomAppend(input, id, at), db)
    ensures input.kind != EARN
  {
  }

  lemma ReserveStepKeepsValid(db: Db, rid: string, row: Redemption, limited: bool, eid: string, at: int)
    requires Valid(db)
    requires var a := AtomReserve(rid, row, limited, eid, at); Admissible(a, db) && Succeeds(a, db)
    ensures var d := ReserveWith(db, rid, row, limited, eid, at).0; Valid(d) && Evolves(db, d)
  {
    hide ReserveWith, LedgerState, RedemptionInv, DeliveryInv, RulesInv, StockConserved;
    LedgerOfState(db);
    ReserveKeepsRedemptions(db, rid, row, limited, eid, at);
    ReserveShape(db, rid, row, limited, eid, at);
    ReserveKeepsLedger(db, rid, row, limited, eid, at);
    DeliveriesIgnoreOthers(db, ReserveWith(db, rid, row, limited, eid, at).0);
  }

  lemma LedgerOfState(db: Db)
    requires LedgerState(db)
    ensures LedgerInv(db.ledger)
  {
  }

  lemma ReserveKeepsLedger(db: Db, rid: string, row: Redemption, limited: bool, eid: string, at: int)
    requires LedgerState(db)
    requires ReserveWith(db, rid, row, limited, eid, at).1.Ok?
    ensures LedgerState(ReserveWith(db, rid, row, limited, eid, at).0)
  {
    hide LedgerState, Append;
    if FindByKey(db, row.userId, row.key).None? {
      var claimed := db.(redemptions := db.redemptions[rid := row]);
      LedgerIgnoresOthers(db, claimed);
      MaterialiseKeepsState(claimed, row.userId);
      var locked := Materialise(claimed, row.userId);
      var unit := if limited then TakeUnit(locked, row.rewardId) else Some(locked);
      LedgerIgnoresOthers(locked, unit.value);
      DebitIsSound(unit.value.ledger, rid, row);
      AppendKeepsLedger(unit.value, DebitInput(rid, row), eid, at);
    }
  }

  lemma MaterialiseKeepsState(db: Db, u: string)
    requires LedgerState(db) && UserExists(db, u)
    ensures LedgerState(Materialise(db, u))
  {
    MaterialiseKeeps(db, u);
  }

  lemma FulfilStepKeepsValid(db: Db, rid: string, ref: string)
    requires Valid(db) && rid in db.redemptions && db.redemptions[rid].status == RESERVED
    ensures Valid(Fulfil(db, rid, ref)) && Evolves(db, Fulfil(db, rid, ref))
  {
    hide LedgerState, RedemptionInv, DeliveryInv, RulesInv, StockConserved;
    FulfilKeepsRedemptions(db, rid, ref);
    LedgerIgnoresOthers(db, Fulfil(db, rid, ref));
    DeliveriesIgnoreOthers(db, Fulfil(db, rid, ref));
  }

  lemma CompensateStepKeepsValid(db: Db, v: Reservation, reason: string, o: Entry, eid: string, at: int)
    requires Valid(db)
    requires var a := AtomCompensate(v, reason, o, eid, at); Admissible(a, db) && Succeeds(a, db)
    ensures var d := Compensate(db, v, reason, eid, at).0; Valid(d) && Evolves(db, d)
  {
    hide Compensate, LedgerState, RedemptionInv, DeliveryInv, RulesInv, StockConserved;
    CompensateFresh(db, v, reason, o, eid, at);
    CompensateShape(db, v, reason, eid, at, o);
    CompensateKeepsRedemptions(db, v, reason, eid, at, o);
    CompensateKeepsLedger(db, v, reason, eid, at, o);
    var d := Compensate(db, v, reason, eid, at).0;
    var e := NewRow(ReversalOf(o), eid, at);
    assert d.ledger == db.ledger + [e] && e.kind != EARN;
    DeliveriesIgnoreOthers(db, d);
  }

  /** A compensation that did its work inserted a new row. */
  lemma CompensateFresh(db: Db, v: Reservation, reason: string, o: Entry, eid: string, at: int)
    requires LedgerState(db) && RedemptionInv(db)
    requires var a := AtomCompensate(v, reason, o, eid, at); Admissible(a, db) && Succeeds(a, db)
    ensures !HasId(db.ledger, eid) && db.redemptions[v.redemptionId].status == RESERVED
  {
    UnreversedDebit(db, v.redemptionId, o);
    RowById(db.ledger, o);
    NotReversedYet(db.ledger, o);
    hide LedgerState, RedemptionInv, LedgerInv, FindKey, FindRow, HasReversal;
  }

  lemma CompensateKeepsLedger(db: Db, v: Reservation, reason: string, eid: string, at: int, o: Entry)
    requires LedgerState(db) && RedemptionInv(db)
    requires v.redemptionId in db.redemptions && db.redemptions[v.redemptionId].status == RESERVED
    requires o in db.ledger && o.id == v.entryId && DebitFor(o, v.redemptionId, db.redemptions[v.redemptionId])
    requires !HasId(db.ledger, eid)
    ensures LedgerState(Compensate(db, v, reason, eid, at).0)
  {
    hide LedgerState, RedemptionInv, Append;
    var m := MarkFailed(db, v.redemptionId, reason);
    LedgerIgnoresOthers(db, m);
    ReversalIsSound(m.ledger, o);
    CompensateShape(db, v, reason, eid, at, o);
    LedgerOfState(db);
    RowById(db.ledger, o);
    AppendKeepsLedger(m, ReversalOf(o), eid, at);
    LedgerIgnoresOthers(Append(m, ReversalOf(o), eid, at).0, Compensate(db, v, reason, eid, at).0);
  }

  lemma ArriveStepKeepsValid(db: Db, did: string, d: Delivery)
    requires Valid(db)
    requires var a := AtomArrive(did, d); Admissible(a, db) && Succeeds(a, db)
    ensures var db' := db.(deliveries := db.deliveries[did := d]); Valid(db') && Evolves(db, db')
  {
    hide LedgerState, RedemptionInv, RulesInv, StockConserved, EarnsExplained, ProcessedCredited, KeysResolved, DeliveriesUnique, NoClash;
    var db' := db.(deliveries := db.deliveries[did := d]);
    ArrivalIsUnique(db, did, d);
    RulesDoNotClash(db);
    LedgerIgnoresOthers(db, db');
    RedemptionsIgnoreOthers(db, db');
    GrowthKeepsCredits(db, db');
  }

  lemma ArrivalIsUnique(db: Db, did: string, d: Delivery)
    requires KeysResolved(db) && DeliveriesUnique(db)
    requires did !in db.deliveries && FindDelivery(db, d.partner, d.key).None? && d.key == ResolveKey(d.body)
    ensures var db' := db.(deliveries := db.deliveries[did := d]); KeysResolved(db') && DeliveriesUnique(db')
  {
  }

  lemma MarkStepKeepsValid(db: Db, did: string, c: Change)
    requires Valid(db) && did in db.deliveries
    requires c == Credited ==> CreditedFor(db, db.deliveries[did])
    ensures Valid(Update(db, did, c)) && Evolves(db, Update(db, did, c))
  {
    hide LedgerState, RedemptionInv, RulesInv, DeliveryInv, CreditedFor, NoClash, StockConserved, Alter;
    RulesDoNotClash(db);
    UpdateKeepsDeliveries(db, did, c);
    LedgerIgnoresOthers(db, Update(db, did, c));
    RedemptionsIgnoreOthers(db, Update(db, did, c));
    AlterKeepsIdentity(db.deliveries[did], c);
  }

  /** The tables a credit leaves alone, and what the balance row it may add does not disturb. */
  lemma CreditGround(db: Db, m: Db, did: string, input: AppendInput)
    requires Valid(db) && did in db.deliveries && CreditResolved(db, db.deliveries[did], input)
    requires m == db.(balances := m.balances)
    ensures RedemptionInv(m) && DeliveryInv(m) && RulesInv(m.rules) && NoClash(m.rules)
    ensures CreditResolved(m, m.deliveries[did], input) && InputSound(db.ledger, input)
  {
    hide LedgerState, RedemptionInv, DeliveryInv, RulesInv, NoClash, InputSound, CreditResolved;
    CreditInputIsSound(db, did, input);
    RulesDoNotClash(db);
    RedemptionsIgnoreOthers(db, m);
    DeliveriesIgnoreOthers(db, m);
    CreditResolvedIgnoresBalances(db, m, did, input);
  }

  lemma CreditPosted(m: Db, did: string, input: AppendInput, eid: string, at: int)
    requires RedemptionInv(m) && DeliveryInv(m) && NoClash(m.rules)
    requires did in m.deliveries && CreditResolved(m, m.deliveries[did], input)
    ensures var d := Post(m, NewRow(input, eid, at));
      RedemptionInv(d) && DeliveryInv(d) && CreditedFor(d, m.deliveries[did])
  {
    hide RedemptionInv, DeliveryInv, NoClash, CreditedFor, CreditResolved;
    var e := NewRow(input, eid, at);
    RowIsCredit(m, did, input, e);
    PostKeepsDeliveries(m, e);
    UntaggedPostKeeps(m, e);
  }

  /** The append inside a credit either adds this delivery's own EARN row or finds it already there. */
  lemma CreditAppendKeepsValid(db: Db, did: string, input: AppendInput, eid: string, at: int)
    requires Valid(db)
    requires var a := AtomCredit(did, input, eid, at); Admissible(a, db) && Succeeds(a, db)
    ensures var d := Append(db, input, eid, at).0;
      Valid(d) && Evolves(db, d) && did in d.deliveries && CreditedFor(d, d.deliveries[did])
  {
    hide LedgerState, RedemptionInv, DeliveryInv, RulesInv, NoClash, InputSound, StockConserved, Append, CreditedFor, CreditResolved, FindKey, HasId, Materialise;
    AppendShape(db, input, eid, at);
    var m, d := Materialise(db, input.userId), Append(db, input, eid, at).0;
    CreditGround(db, m, did, input);
    AppendKeepsLedger(db, input, eid, at);
    StockIgnoresOthers(db, d);
    if Append(db, input, eid, at).1.value.duplicate {
      CreditWasThere(m, did, input);
    } else {
      CreditPosted(m, did, input, eid, at);
    }
  }

  lemma CreditInputIsSound(db: Db, did: string, input: AppendInput)
    requires did in db.deliveries && CreditResolved(db, db.deliveries[did], input)
    ensures InputSound(db.ledger, input)
  {
    var dl := db.deliveries[did];
    CreditIsSound(db.ledger, dl.partner, dl.body.eventId, db.users[dl.body.userRef],
                  ResolveRule(db.rules, dl.body.activityType, dl.body.occurredAt).value);
  }

  lemma CreditResolvedIgnoresBalances(db: Db, m: Db, did: string, input: AppendInput)
    requires did in db.deliveries && CreditResolved(db, db.deliveries[did], input)
    requires m == db.(balances := m.balances)
    ensures CreditResolved(m, m.deliveries[did], input)
  {
  }

  /** The row a credit adds is the delivery's own, and has nothing to do with redemptions or reversals. */
  lemma RowIsCredit(db: Db, did: string, input: AppendInput, e: Entry)
    requires DeliveryInv(db) && did in db.deliveries && CreditResolved(db, db.deliveries[did], input)
    requires e == NewRow(input, e.id, e.createdAt)
    ensures Explained(db, e) && CreditedFor(Post(db, e), db.deliveries[did])
    ensures e.kind == EARN && e.redemptionId.None? && e.reversesId.None?
  {
    assert EarnedBy(db, e, db.deliveries[did]);
    assert EarnedBy(Post(db, e), Post(db, e).ledger[|db.ledger|], db.deliveries[did]);
  }

  lemma StockIgnoresOthers(db: Db, d: Db)
    requires d.redemptions == db.redemptions && d.rewards == db.rewards
    ensures StockConserved(db, d)
  {
  }

  lemma CreditWasThere(db: Db, did: string, input: AppendInput)
    requires DeliveryInv(db) && LedgerState(db)
    requires did in db.deliveries && CreditResolved(db, db.deliveries[did], input)
    requires FindKey(db.ledger, input.source, input.eventId).Some?
    ensures CreditedFor(db, db.deliveries[did])
  {
    var i :| 0 <= i < |db.ledger| && HoldsKey(db.ledger[i], input.source, input.eventId);
    KeyHolderIsOwnCredit(db, did, i);
  }

  lemma CreditStepKeepsValid(db: Db, did: string, input: AppendInput, eid: string, at: int)
    requires Valid(db)
    requires var a := AtomCredit(did, input, eid, at); Admissible(a, db) && Succeeds(a, db)
    ensures var d := CreditDelivery(db, did, input, eid, at).0; Valid(d) && Evolves(db, d)
  {
    hide Valid, Evolves, Append, CreditedFor, Admissible;
    CreditAppendKeepsValid(db, did, input, eid, at);
    var d := Append(db, input, eid, at).0;
    MarkStepKeepsValid(d, did, Credited);
    EvolvesTransitive(db, d, Update(d, did, Credited));
  }

  /** Every step a transaction can commit keeps the invariant and only lets the database evolve. The one
      write with no guard of its own, FULFILLED, needs its row still RESERVED. */
  lemma StepKeepsValid(a: Atom, db: Db)
    requires Valid(db) && Admissible(a, db) && Succeeds(a, db)
    requires a.AtomFulfil? ==> a.rid in db.redemptions && db.redemptions[a.rid].status == RESERVED
    ensures Valid(Effect(a, db)) && Evolves(db, Effect(a, db))
  {
    EvolvesReflexive(db);
    if a.AtomMark? {
      MarksAreNotCredits(a, db);
    }
    hide Valid, Evolves, Admissible, CreditedFor, Append, ReserveWith, Compensate, CreditDelivery;
    match a
    case AtomAppend(input, id, at) => AppendStepKeepsValid(db, input, id, at);
    case AtomReserve(rid, row, limited, eid, at) => ReserveStepKeepsValid(db, rid, row, limited, eid, at);
    case AtomReplay(_) =>
    case AtomFulfil(rid, ref) => FulfilStepKeepsValid(db, rid, ref);
    case AtomCompensate(v, reason, o, eid, at) => CompensateStepKeepsValid(db, v, reason, o, eid, at);
    case AtomArrive(did, d) => ArriveStepKeepsValid(db, did, d);
    case AtomMark(did, c) => MarkStepKeepsValid(db, did, c);
    case AtomCredit(did, input, eid, at) => CreditStepKeepsValid(db, did, input, eid, at);
  }
}
