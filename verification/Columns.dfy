/** What each operation writes, column by column, and exactly when the ledger refuses a row: everything here is said
    of the tables themselves. */
module Columns {
  import opened Schema
  import opened Earning
  import opened Ledger
  import opened Redeeming
  import opened Webhook
  import opened Atoms
  import opened Ingestion

  // ----- The ledger -----

  /** A row under this source and event id, which is what makes an append a repeat. */
  ghost predicate Recorded(l: seq<Entry>, source: string, eventId: Option<string>) {
    exists i :: 0 <= i < |l| && eventId.Some? && l[i].source == source && l[i].eventId == eventId
  }

  ghost predicate IdTaken(l: seq<Entry>, id: string) {
    exists i :: 0 <= i < |l| && l[i].id == id
  }

  ghost predicate Undone(l: seq<Entry>, id: string) {
    exists i :: 0 <= i < |l| && l[i].reversesId == Some(id)
  }

  ghost predicate RuleKnown(rules: seq<Rule>, id: string) {
    exists i :: 0 <= i < |rules| && rules[i].id == id
  }

  lemma RecordedIsFound(l: seq<Entry>, source: string, eventId: Option<string>)
    ensures FindKey(l, source, eventId).Some? <==> Recorded(l, source, eventId)
  {
    if Recorded(l, source, eventId) {
      var i :| 0 <= i < |l| && eventId.Some? && l[i].source == source && l[i].eventId == eventId;
      assert HoldsKey(l[i], source, eventId);
    }
  }

  lemma TakenIsTaken(l: seq<Entry>, id: string)
    ensures HasId(l, id) <==> IdTaken(l, id)
    ensures HasReversal(l, id) <==> Undone(l, id)
  {
    if HasReversal(l, id) {
      var e :| e in l && e.reversesId == Some(id);
      var i :| 0 <= i < |l| && l[i] == e;
    }
    if HasId(l, id) {
      var e :| e in l && e.id == id;
      var i :| 0 <= i < |l| && l[i] == e;
    }
    assert forall i :: 0 <= i < |l| ==> l[i] in l;
  }

  lemma KnownIsKnown(rules: seq<Rule>, id: string)
    ensures (exists r | r in rules :: r.id == id) <==> RuleKnown(rules, id)
  {
    if r :| r in rules && r.id == id {
      var i :| 0 <= i < |rules| && rules[i] == r;
    }
    assert forall i :: 0 <= i < |rules| ==> rules[i] in rules;
  }

  /** The row breaks a CHECK constraint. */
  predicate Illegal(delta: int, kind: EntryType) {
    delta == 0 || (kind == EARN && delta < 0) || (kind == REDEEM && delta > 0)
  }

  /** The row would refer to something that is not there. */
  ghost predicate Dangling(db: Db, input: AppendInput) {
    || (input.redemptionId.Some? && input.redemptionId.value !in db.redemptions)
    || (input.ruleId.Some? && !RuleKnown(db.rules, input.ruleId.value))
    || (input.reversesId.Some? && !IdTaken(db.ledger, input.reversesId.value))
  }

  /** Exactly what an append comes to, in the order the questions are asked: an unknown user, an illegal amount, a
      repeat, an id or a reversal already there, a dangling reference, a spend beyond the balance, a new row. */
  lemma AppendDecides(db: Db, input: AppendInput, id: string, at: int)
    ensures var r := Append(db, input, id, at).1;
      var u := input.userId;
      var balance := if u in db.balances then db.balances[u] else 0;
      var known := u in db.balances || u in db.users.Values;
      var legal := known && !Illegal(input.delta, input.kind);
      var first := legal && !Recorded(db.ledger, input.source, input.eventId);
      var unique := first && !IdTaken(db.ledger, id) && !(input.reversesId.Some? && Undone(db.ledger, input.reversesId.value));
      var sound := unique && !Dangling(db, input);
      var short := input.enforceNonNegative && input.delta < 0 && balance < -input.delta;
      && (r == Err(UnknownUser(u)) <==> !known)
      && (r == Err(CheckViolation) <==> known && !legal)
      && (r.Ok? && r.value.duplicate <==> legal && !first)
      && (r == Err(UniqueViolation) <==> first && !unique)
      && (r == Err(ForeignKeyViolation) <==> unique && !sound)
      && (r == Err(InsufficientPoints(u, balance, -input.delta)) <==> sound && short)
      && (r.Ok? && !r.value.duplicate <==> sound && !short)
  {
    hide Recorded, IdTaken, Undone, RuleKnown, FindKey, HasId, HasReversal, ReferencesExist, Append, UserExists, RowChecks;
    RecordedIsFound(db.ledger, input.source, input.eventId);
    TakenIsTaken(db.ledger, id);
    if input.reversesId.Some? {
      TakenIsTaken(db.ledger, input.reversesId.value);
    }
    DanglingIsMissing(db, input);
    LegalIsChecked(input.delta, input.kind);
    AppendAsks(db, input, id, at);
  }

  lemma LegalIsChecked(delta: int, kind: EntryType)
    ensures RowChecks(delta, kind) <==> !Illegal(delta, kind)
  {
  }

  lemma DanglingIsMissing(db: Db, input: AppendInput)
    ensures ReferencesExist(db, input) <==> !Dangling(db, input)
  {
    if input.reversesId.Some? {
      TakenIsTaken(db.ledger, input.reversesId.value);
    }
    if input.ruleId.Some? {
      KnownIsKnown(db.rules, input.ruleId.value);
    }
    hide IdTaken, RuleKnown, HasId;
  }

  /** The questions an append asks. */
  lemma AppendAsks(db: Db, input: AppendInput, id: string, at: int)
    ensures var r := Append(db, input, id, at).1;
      var u := input.userId;
      var balance := if u in db.balances then db.balances[u] else 0;
      var known := u in db.balances || u in db.users.Values;
      var legal := known && RowChecks(input.delta, input.kind);
      var first := legal && FindKey(db.ledger, input.source, input.eventId).None?;
      var unique := first && !HasId(db.ledger, id) && !(input.reversesId.Some? && HasReversal(db.ledger, input.reversesId.value));
      var sound := unique && ReferencesExist(db, input);
      if !known then r == Err(UnknownUser(u))
      else if !legal then r == Err(CheckViolation)
      else if !first then r.Ok? && r.value.duplicate
      else if !unique then r == Err(UniqueViolation)
      else if !sound then r == Err(ForeignKeyViolation)
      else if input.enforceNonNegative && input.delta < 0 && balance < -input.delta then
        r == Err(InsufficientPoints(u, balance, -input.delta))
      else r.Ok? && !r.value.duplicate
  {
    hide FindKey, HasId, HasReversal, RowChecks;
  }

  /** What a successful append leaves and answers: a repeat names the row recorded first and leaves the ledger and every
      balance; otherwise one row with every column as asked for, and its user's balance with it. */
  lemma AppendWrites(db: Db, input: AppendInput, id: string, at: int)
    requires Append(db, input, id, at).1.Ok?
    ensures var (d, r) := Append(db, input, id, at);
      var balance := if input.userId in db.balances then db.balances[input.userId] else 0;
      && d == db.(ledger := d.ledger, balances := d.balances)
      && if r.value.duplicate then
           && d.ledger == db.ledger && d.balances == db.balances[input.userId := balance] && r.value.balanceAfter == balance
           && exists e :: e in db.ledger && e.id == r.value.transactionId && e.source == input.source && e.eventId == input.eventId
         else
           && d.ledger == db.ledger + [Entry(id, input.userId, input.delta, input.kind, input.source, input.eventId,
                                             input.redemptionId, input.ruleId, input.reversesId, at)]
           && d.balances == db.balances[input.userId := balance + input.delta]
           && r.value.transactionId == id && r.value.balanceAfter == balance + input.delta
  {
    hide HasId, HasReversal, ReferencesExist, RowChecks, UserExists;
    var original := FindKey(db.ledger, input.source, input.eventId);
    if original.Some? {
      var i :| 0 <= i < |db.ledger| && HoldsKey(db.ledger[i], input.source, input.eventId) && db.ledger[i].id == original.value;
      assert db.ledger[i] in db.ledger;
    }
    assert input.userId in db.balances ==> db.balances == db.balances[input.userId := db.balances[input.userId]];
  }

  /** Taking a row back. It is refused only if there is no such row; the first time it adds the row's mirror, under the
      reversal source and the row's own id, whatever the balance; after that it changes nothing. */
  lemma ReverseWrites(db: Db, originalId: string, id: string, at: int)
    requires Valid(db) && !IdTaken(db.ledger, id)
    ensures var (d, r) := Reverse(db, originalId, id, at);
      && (r == Err(EntryNotFound(originalId)) <==> !IdTaken(db.ledger, originalId))
      && (r.Ok? <==> IdTaken(db.ledger, originalId))
      && (r.Ok? ==> (r.value.reversed <==> !Undone(db.ledger, originalId)))
      && (r.Ok? && Undone(db.ledger, originalId) ==> d == db)
      && forall o :: o in db.ledger && o.id == originalId && !Undone(db.ledger, originalId) ==>
           var balance := if o.userId in db.balances then db.balances[o.userId] else 0;
           && d == db.(ledger := db.ledger + [Entry(id, o.userId, -o.delta, REVERSAL, "reversal", Some(o.id),
                                                    o.redemptionId, None, Some(o.id), at)],
                       balances := db.balances[o.userId := balance - o.delta])
           && r == Ok(Reversed(Appended(id, balance - o.delta, false), true))
  {
    TakenIsTaken(db.ledger, id);
    TakenIsTaken(db.ledger, originalId);
    hide Valid, IdTaken, Undone, HasId, HasReversal, Reverse;
    if !HasId(db.ledger, originalId) {
      UnknownRow(db, originalId, id, at);
      assert forall o :: o in db.ledger ==> o.id != originalId by {
        NobodyHasId(db.ledger, originalId);
      }
    } else {
      var o := RowWithId(db.ledger, originalId);
      OnlyRow(db, o);
      if HasReversal(db.ledger, o.id) {
        ReversedAlready(db, o, id, at);
      } else {
        ReversedFirst(db, o, id, at);
      }
    }
  }

  lemma UnknownRow(db: Db, originalId: string, id: string, at: int)
    requires !HasId(db.ledger, originalId)
    ensures Reverse(db, originalId, id, at) == (db, Err(EntryNotFound(originalId)))
  {
  }

  lemma NobodyHasId(l: seq<Entry>, id: string)
    requires !HasId(l, id)
    ensures forall o :: o in l ==> o.id != id
  {
  }

  lemma RowWithId(l: seq<Entry>, id: string) returns (o: Entry)
    requires HasId(l, id)
    ensures o in l && o.id == id
  {
    o :| o in l && o.id == id;
  }

  lemma ReversedFirst(db: Db, o: Entry, id: string, at: int)
    requires Valid(db) && o in db.ledger && !HasId(db.ledger, id) && !HasReversal(db.ledger, o.id)
    ensures var balance := if o.userId in db.balances then db.balances[o.userId] else 0;
      Reverse(db, o.id, id, at) ==
        (db.(ledger := db.ledger + [Entry(id, o.userId, -o.delta, REVERSAL, "reversal", Some(o.id),
                                          o.redemptionId, None, Some(o.id), at)],
             balances := db.balances[o.userId := balance - o.delta]),
         Ok(Reversed(Appended(id, balance - o.delta, false), true)))
  {
    hide Valid, LedgerInv, HasId, HasReversal, Reverse;
    ValidLedger(db);
    RowOfUser(db, o);
    ReverseShape(db, o, id, at);
  }

  lemma ValidLedger(db: Db)
    requires Valid(db)
    ensures LedgerState(db) && LedgerInv(db.ledger)
  {
    hide RedemptionInv, DeliveryInv, RulesInv;
    LedgerOfState(db);
  }

  lemma OnlyRow(db: Db, o: Entry)
    requires Valid(db) && o in db.ledger
    ensures forall x :: x in db.ledger && x.id == o.id ==> x == o
  {
    ValidLedger(db);
    hide Valid, LedgerState, LedgerInv;
    forall x | x in db.ledger && x.id == o.id ensures x == o {
      RowById(db.ledger, x);
      RowById(db.ledger, o);
    }
  }

  lemma RowOfUser(db: Db, o: Entry)
    requires Valid(db) && o in db.ledger
    ensures o.userId in db.balances
    ensures o.redemptionId.Some? ==> o.redemptionId.value in db.redemptions
  {
    hide DeliveryInv, RulesInv, AllAccounted, ClaimsUnique, LedgerInv, BalancesMatch, FloorHolds;
    var i :| 0 <= i < |db.ledger| && db.ledger[i] == o;
    assert db.ledger[i].userId in db.balances;
  }

  lemma ReversedAlready(db: Db, o: Entry, id: string, at: int)
    requires Valid(db) && o in db.ledger && HasReversal(db.ledger, o.id)
    ensures var (d, r) := Reverse(db, o.id, id, at); d == db && r.Ok? && !r.value.reversed
  {
    ValidLedger(db);
    RowOfUser(db, o);
    RowById(db.ledger, o);
    ReversalIsSound(db.ledger, o);
    ReversalGuardNeverFires(db.ledger, ReversalOf(o));
    hide Valid, LedgerState, InputSound, UndoesEarlier, DistinctIds, DistinctKeys, HasReversal;
    var i :| 0 <= i < |db.ledger| && db.ledger[i] == o;
    assert WellLabelled(db.ledger[i]);
  }

  // ----- Redemptions -----

  /** What a first reservation leaves and answers: its row at the reward's price and name as read, its debit, its unit. */
  lemma ReserveWrites(db: Db, input: RedeemInput, rid: string, eid: string, at: int)
    requires Reserve(db, input, rid, eid, at).1.Ok? && Reserve(db, input, rid, eid, at).1.value.Claimed?
    ensures var (d, r) := Reserve(db, input, rid, eid, at);
      && input.rewardId in db.rewards
      && var reward := db.rewards[input.rewardId];
         var row := Redemption(input.userId, input.rewardId, RESERVED, reward.cost, reward.name, input.key, None, None);
         var balance := if input.userId in db.balances then db.balances[input.userId] else 0;
         && reward.active && balance >= reward.cost && (reward.stock.Some? ==> reward.stock.value > 0)
         && d == db.(redemptions := db.redemptions[rid := row],
                     ledger := db.ledger + [Entry(eid, input.userId, -reward.cost, REDEEM, "redemption", None, Some(rid), None, None, at)],
                     balances := db.balances[input.userId := balance - reward.cost],
                     rewards := if reward.stock.None? then db.rewards
                                else db.rewards[input.rewardId := reward.(stock := Some(reward.stock.value - 1))])
         && r == Ok(Claimed(Reservation(rid, eid, input.rewardId), row, balance - reward.cost))
  {
    hide ReserveWith, FindByKey, HasId, UserExists;
    var reward := db.rewards[input.rewardId];
    ReserveShape(db, rid, ClaimRow(input, reward), reward.stock.Some?, eid, at);
  }

  /** What compensating leaves and answers: the row FAILED with its reason, its debit mirrored, its unit returned; and
      nothing at all once the row is settled or is not there. */
  lemma CompensateWrites(db: Db, v: Reservation, reason: string, eid: string, at: int, o: Entry)
    requires Valid(db) && !IdTaken(db.ledger, eid)
    requires v.redemptionId in db.redemptions && v.rewardId == db.redemptions[v.redemptionId].rewardId
    requires o in db.ledger && o.id == v.entryId && DebitFor(o, v.redemptionId, db.redemptions[v.redemptionId])
    ensures var (d, r) := Compensate(db, v, reason, eid, at);
      var row := db.redemptions[v.redemptionId];
      var balance := if row.userId in db.balances then db.balances[row.userId] else 0;
      if row.status != RESERVED then d == db && r == Ok(false)
      else
        && r == Ok(true) && v.rewardId in db.rewards
        && var reward := db.rewards[v.rewardId];
           d == db.(redemptions := db.redemptions[v.redemptionId := row.(status := FAILED, failureReason := Some(reason))],
                    ledger := db.ledger + [Entry(eid, row.userId, row.cost, REVERSAL, "reversal", Some(v.entryId),
                                                 Some(v.redemptionId), None, Some(v.entryId), at)],
                    balances := db.balances[row.userId := balance + row.cost],
                    rewards := if reward.stock.None? then db.rewards
                               else db.rewards[v.rewardId := reward.(stock := Some(reward.stock.value + 1))])
  {
    hide Valid, IdTaken, HasId, Compensate;
    TakenIsTaken(db.ledger, eid);
    ValidRedemptions(db, v.redemptionId);
    if db.redemptions[v.redemptionId].status == RESERVED {
      ValidLedger(db);
      ValidParts(db);
      CompensateShape(db, v, reason, eid, at, o);
      hide LedgerState, RedemptionInv, LedgerInv;
      CompensatedTables(db, v, reason, eid, at, o);
    } else {
      SettledStays(db, v, reason, eid, at);
    }
  }

  lemma SettledStays(db: Db, v: Reservation, reason: string, eid: string, at: int)
    requires v.redemptionId in db.redemptions && db.redemptions[v.redemptionId].status != RESERVED
    ensures Compensate(db, v, reason, eid, at) == (db, Ok(false))
  {
  }

  lemma ValidParts(db: Db)
    requires Valid(db)
    ensures LedgerState(db) && RedemptionInv(db)
  {
  }

  lemma CompensatedTables(db: Db, v: Reservation, reason: string, eid: string, at: int, o: Entry)
    requires v.redemptionId in db.redemptions && v.rewardId in db.rewards && o.id == v.entryId
    requires DebitFor(o, v.redemptionId, db.redemptions[v.redemptionId])
    ensures var row := db.redemptions[v.redemptionId];
      var balance := if row.userId in db.balances then db.balances[row.userId] else 0;
      var reward := db.rewards[v.rewardId];
      ReturnUnit(Post(MarkFailed(db, v.redemptionId, reason), NewRow(ReversalOf(o), eid, at)), v.rewardId) ==
        db.(redemptions := db.redemptions[v.redemptionId := row.(status := FAILED, failureReason := Some(reason))],
            ledger := db.ledger + [Entry(eid, row.userId, row.cost, REVERSAL, "reversal", Some(v.entryId),
                                         Some(v.redemptionId), None, Some(v.entryId), at)],
            balances := db.balances[row.userId := balance + row.cost],
            rewards := if reward.stock.None? then db.rewards
                       else db.rewards[v.rewardId := reward.(stock := Some(reward.stock.value + 1))])
  {
  }

  lemma ValidRedemptions(db: Db, rid: string)
    requires Valid(db) && rid in db.redemptions
    ensures db.redemptions[rid].rewardId in db.rewards
  {
    hide LedgerState, DeliveryInv, RulesInv, TagsSound, AllAccounted, ClaimsUnique;
  }
}
