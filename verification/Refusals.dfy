/** How a whole redemption ends and what it answers, for a key nobody has used: why it is refused, and what it leaves. */
module Refusals {
  import opened Schema
  import opened Earning
  import opened Ledger
  import opened Redeeming
  import opened Webhook
  import opened Atoms
  import opened Contention
  import opened Columns
  import opened Allocation

  /** A request with a new key, by a user the service knows, and new ids. */
  ghost predicate NewRequest(db: Db, input: RedeemInput, ids: Ids) {
    && Valid(db) && input.userId in db.users.Values
    && (forall rid :: rid in db.redemptions ==> !(db.redemptions[rid].userId == input.userId && db.redemptions[rid].key == input.key))
    && ids.rid !in db.redemptions && !IdTaken(db.ledger, ids.debit) && !IdTaken(db.ledger, ids.refund) && ids.debit != ids.refund
  }

  predicate Offered(db: Db, rw: string) {
    rw in db.rewards && db.rewards[rw].active
  }

  predicate Available(db: Db, rw: string)
    requires rw in db.rewards
  {
    db.rewards[rw].stock.Some? ==> db.rewards[rw].stock.value > 0
  }

  function BalanceOf(db: Db, u: string): int {
    if u in db.balances then db.balances[u] else 0
  }

  /** The reward is offered and available and the user has its price. */
  predicate CanPay(db: Db, u: string, rw: string) {
    Offered(db, rw) && Available(db, rw) && BalanceOf(db, u) >= db.rewards[rw].cost
  }

  lemma NewRequestIsUnused(db: Db, input: RedeemInput, ids: Ids, at: int)
    requires NewRequest(db, input, ids)
    ensures Valid(db) && UserExists(db, input.userId) && Unused(db, input.userId, Attempt(input.key, ids.rid, ids.debit, at))
    ensures !HasId(db.ledger, ids.refund)
    ensures forall rw :: rw in db.rewards ==> db.rewards[rw].cost > 0
  {
    TakenIsTaken(db.ledger, ids.debit);
    TakenIsTaken(db.ledger, ids.refund);
    forall rw | rw in db.rewards ensures db.rewards[rw].cost > 0 {
      CostIsPositive(db, rw);
    }
    hide Valid, IdTaken, HasId;
  }

  /** The reservation of a new request: it succeeds exactly when the user can pay, and is refused for the first of the
      reasons that holds. */
  lemma ReservationDecides(db: Db, input: RedeemInput, ids: Ids, at: int)
    requires NewRequest(db, input, ids)
    ensures var u, rw := input.userId, input.rewardId;
      var r := Reserve(db, input, ids.rid, ids.debit, at).1;
      if rw !in db.rewards then r == Err(RewardNotFound(rw))
      else if !db.rewards[rw].active then r == Err(RewardInactive)
      else if !Available(db, rw) then r == Err(OutOfStock)
      else if BalanceOf(db, u) < db.rewards[rw].cost then r == Err(InsufficientPoints(u, BalanceOf(db, u), db.rewards[rw].cost))
      else r.Ok? && r.value.Claimed?
  {
    hide NewRequest, Valid, Reserve, Unused, UserExists;
    NewRequestIsUnused(db, input, ids, at);
    var a := Attempt(input.key, ids.rid, ids.debit, at);
    RefusalReasons(db, input.userId, input.rewardId, a);
    if Offered(db, input.rewardId) {
      AttemptDecided(db, input.userId, input.rewardId, a, db.rewards[input.rewardId].cost);
    }
  }

  /** Exactly why a redemption under a new key is refused. Unknown reward, inactive, a key two vanishing rivals keep from
      being claimed, no unit left, not enough points, in this order; and in each of these cases nothing has changed. It
      throws for no other reason, except when the answer to a committed claim could not be recorded. */
  lemma RedeemDecides(db: Db, input: RedeemInput, ids: Ids, at: int, f: Fulfilment)
    requires NewRequest(db, input, ids)
    ensures var u, rw := input.userId, input.rewardId;
      var (d, r) := Redeem(db, input, ids, at, f);
      var claims := Offered(db, rw) && !f.Unclaimable?;
      && (r == Err(RewardNotFound(rw)) <==> rw !in db.rewards)
      && (r == Err(RewardInactive) <==> rw in db.rewards && !Offered(db, rw))
      && (r == Err(KeyUnclaimable) <==> Offered(db, rw) && f.Unclaimable?)
      && (r == Err(OutOfStock) <==> claims && !Available(db, rw))
      && (rw in db.rewards ==>
            (r == Err(InsufficientPoints(u, BalanceOf(db, u), db.rewards[rw].cost)) <==>
              claims && Available(db, rw) && BalanceOf(db, u) < db.rewards[rw].cost))
      && (r == Err(Infrastructure) <==> CanPay(db, u, rw) && f.Unsettled?)
      && (r.Ok? <==> CanPay(db, u, rw) && (f.Issued? || f.Refused?))
      && (r.Err? && !(CanPay(db, u, rw) && f.Unsettled?) ==> d == db)
  {
    ReservationDecides(db, input, ids, at);
    ClaimIsReached(db, input, ids);
    if CanPay(db, input.userId, input.rewardId) && !f.Unclaimable? {
      RedeemWrites(db, input, ids, at, f);
    }
    hide NewRequest, Reserve, Compensate, ReachesClaim;
  }

  /** A user the service does not know cannot claim: whatever else is in order, the redemption's row has nobody to refer to,
      and nothing has changed. */
  lemma StrangersCannotRedeem(db: Db, input: RedeemInput, ids: Ids, at: int, f: Fulfilment)
    requires Offered(db, input.rewardId) && input.userId !in db.users.Values && ids.rid !in db.redemptions
    requires forall rid :: rid in db.redemptions ==> !(db.redemptions[rid].userId == input.userId && db.redemptions[rid].key == input.key)
    ensures Redeem(db, input, ids, at, f) == (db, Err(ForeignKeyViolation))
  {
    hide Append, Compensate;
  }

  lemma ClaimIsReached(db: Db, input: RedeemInput, ids: Ids)
    requires NewRequest(db, input, ids)
    ensures ReachesClaim(db, input, ids.rid) <==> Offered(db, input.rewardId)
  {
    hide Valid, IdTaken;
  }

  /** What a redemption that is paid for leaves and answers. Fulfilled: the row at the reward's price and name with its
      reference, one debit, one unit, and the balance after it. Refused: the row FAILED with the reason, the debit mirrored,
      and every unit and point where they were. Unrecorded: the reservation stands. */
  lemma RedeemWrites(db: Db, input: RedeemInput, ids: Ids, at: int, f: Fulfilment)
    requires NewRequest(db, input, ids) && CanPay(db, input.userId, input.rewardId) && !f.Unclaimable?
    ensures var u, rw := input.userId, input.rewardId;
      var reward, balance := db.rewards[rw], BalanceOf(db, u);
      var (d, r) := Redeem(db, input, ids, at, f);
      var row := Redemption(u, rw, RESERVED, reward.cost, reward.name, input.key, None, None);
      var debit := Entry(ids.debit, u, -reward.cost, REDEEM, "redemption", None, Some(ids.rid), None, None, at);
      var refund := Entry(ids.refund, u, reward.cost, REVERSAL, "reversal", Some(ids.debit), Some(ids.rid), None, Some(ids.debit), at);
      var taken := if reward.stock.None? then db.rewards else db.rewards[rw := reward.(stock := Some(reward.stock.value - 1))];
      && d.users == db.users && d.rules == db.rules && d.deliveries == db.deliveries
      && match f
         case Issued(ref) =>
           && d.redemptions == db.redemptions[ids.rid := row.(status := FULFILLED, fulfillmentRef := Some(ref))]
           && d.ledger == db.ledger + [debit] && d.balances == db.balances[u := balance - reward.cost] && d.rewards == taken
           && r == Ok(Redeemed(ids.rid, FULFILLED, reward.name, reward.cost, balance - reward.cost, Some(ref), None, false))
         case Refused(reason) =>
           && d.redemptions == db.redemptions[ids.rid := row.(status := FAILED, failureReason := Some(reason))]
           && d.ledger == db.ledger + [debit] + [refund] && d.balances == db.balances[u := balance] && d.rewards == db.rewards
           && r == Ok(Redeemed(ids.rid, FAILED, reward.name, reward.cost, balance, None, Some(reason), false))
         case _ =>
           && d.redemptions == db.redemptions[ids.rid := row]
           && d.ledger == db.ledger + [debit] && d.balances == db.balances[u := balance - reward.cost] && d.rewards == taken
           && r == Err(Infrastructure)
  {
    hide NewRequest, Reserve, Compensate, Valid, IdTaken;
    ReservationDecides(db, input, ids, at);
    ReserveWrites(db, input, ids.rid, ids.debit, at);
    if f.Refused? {
      RefundWrites(db, input, ids, at, f.reason);
    }
  }

  /** The compensation that follows a refused fulfilment, on top of the reservation. */
  lemma RefundWrites(db: Db, input: RedeemInput, ids: Ids, at: int, reason: string)
    requires NewRequest(db, input, ids) && CanPay(db, input.userId, input.rewardId)
    ensures var u, rw := input.userId, input.rewardId;
      var reserved := Reserve(db, input, ids.rid, ids.debit, at).0;
      var (d, r) := Compensate(reserved, Reservation(ids.rid, ids.debit, rw), reason, ids.refund, at);
      && r == Ok(true)
      && ids.rid in reserved.redemptions
      && d == reserved.(
           redemptions := reserved.redemptions[ids.rid := reserved.redemptions[ids.rid].(status := FAILED, failureReason := Some(reason))],
           ledger := reserved.ledger + [Entry(ids.refund, u, db.rewards[rw].cost, REVERSAL, "reversal", Some(ids.debit),
                                              Some(ids.rid), None, Some(ids.debit), at)],
           balances := db.balances[u := BalanceOf(db, u)],
           rewards := db.rewards)
  {
    hide Reserve, Compensate, Valid, Evolves, HasId, Unused;
    NewRequestIsUnused(db, input, ids, at);
    ReservationDecides(db, input, ids, at);
    ReserveWrites(db, input, ids.rid, ids.debit, at);
    ReserveKeepsValid(db, input, ids.rid, ids.debit, at);
    var reserved := Reserve(db, input, ids.rid, ids.debit, at).0;
    var o := reserved.ledger[|db.ledger|];
    CompensateWrites(reserved, Reservation(ids.rid, ids.debit, input.rewardId), reason, ids.refund, at, o);
    assert db.rewards[input.rewardId := db.rewards[input.rewardId]] == db.rewards;
  }

  /** A key that has been used is answered from its redemption, as it is and with the balance as it is, and changes
      nothing, whatever has become of the reward. */
  lemma RedeemReplays(db: Db, input: RedeemInput, ids: Ids, at: int, f: Fulfilment, rid: string)
    requires Valid(db) && rid in db.redemptions && db.redemptions[rid].userId == input.userId && db.redemptions[rid].key == input.key
    ensures var row := db.redemptions[rid];
      Redeem(db, input, ids, at, f) ==
        (db, Ok(Redeemed(rid, row.status, row.rewardName, row.cost, BalanceOf(db, input.userId), row.fulfillmentRef, row.failureReason, true)))
  {
    hide LedgerState, DeliveryInv, RulesInv, TagsSound, AllAccounted, RowsSound, FindByKey;
    assert FindByKey(db, input.userId, input.key) == Some(rid);
  }
}
