/** Whole redemptions, and administrators giving rewards away: credit the price, redeem, undo on refusal. */
module Allocation {
  import opened Schema
  import opened Earning
  import opened Ledger
  import opened Redeeming
  import opened Webhook
  import opened Atoms
  import opened Contention
  import opened Reversals

  const ADMIN_SOURCE := "admin"

  // ----- Both phases of a redemption -----

  /** What a redemption meets that is not in the tables: the third party's answer, a failure to record it, or, before
      that, two rivals for its key that each vanish once its insert has given way to them. */
  datatype Fulfilment = Issued(ref: string) | Refused(reason: string) | Unsettled | Unclaimable

  /** The identifiers an allocation generates: its ledger rows and its redemption. */
  datatype Ids = Ids(credit: string, rid: string, debit: string, refund: string, undo: string)

  /** What a redemption answers its caller. */
  datatype RedemptionOutcome = Redeemed(
    redemptionId: string,
    status: RedemptionStatus,
    rewardName: string,
    cost: int,
    balanceAfter: int,
    fulfillmentRef: Option<string>,
    failureReason: Option<string>,
    replay: bool)

  /** The request gets as far as inserting its claim. */
  ghost predicate ReachesClaim(db: Db, input: RedeemInput, rid: string) {
    && FindByKey(db, input.userId, input.key).None?
    && input.rewardId in db.rewards && db.rewards[input.rewardId].active
    && rid !in db.redemptions && UserExists(db, input.userId)
  }

  /** A redemption from beginning to end, each phase its own transaction. When its key can be neither claimed nor
      read the call throws and leaves nothing; when the answer cannot be recorded the call throws, and the
      reservation it committed stands. */
  ghost function Redeem(db: Db, input: RedeemInput, ids: Ids, at: int, f: Fulfilment): (Db, Result<RedemptionOutcome>) {
    var (d, r) :=
      if f.Unclaimable? && ReachesClaim(db, input, ids.rid) then (db, Err(KeyUnclaimable))
      else Reserve(db, input, ids.rid, ids.debit, at);
    if r.Err? then (db, Err(r.error))
    else
      match r.value
      case Replayed(rid, row, balance) =>
        (d, Ok(Redeemed(rid, row.status, row.rewardName, row.cost, balance, row.fulfillmentRef, row.failureReason, true)))
      case Claimed(v, row, balance) =>
        match f
        case Issued(ref) =>
          (Fulfil(d, ids.rid, ref), Ok(Redeemed(ids.rid, FULFILLED, row.rewardName, row.cost, balance, Some(ref), None, false)))
        case Refused(reason) =>
          var (c, done) := Compensate(d, v, reason, ids.refund, at);
          if done.Err? then (d, Err(done.error))
          else (c, Ok(Redeemed(ids.rid, FAILED, row.rewardName, row.cost, Balance(c, input.userId), None, Some(reason), false)))
        case _ => (d, Err(Infrastructure))
  }

  /** Whatever a redemption answers is what is stored: the row under its key, its snapshots and status, and the
      balance as it is then. It is a replay exactly when the key was taken before. */
  lemma OutcomeTellsWhatIsStored(db: Db, input: RedeemInput, ids: Ids, at: int, f: Fulfilment)
    requires Redeem(db, input, ids, at, f).1.Ok?
    ensures var (d, r) := Redeem(db, input, ids, at, f);
      var o := r.value;
      && o.redemptionId in d.redemptions && HoldsClaim(d.redemptions[o.redemptionId], input.userId, input.key)
      && d.redemptions[o.redemptionId].status == o.status
      && d.redemptions[o.redemptionId].rewardName == o.rewardName && d.redemptions[o.redemptionId].cost == o.cost
      && d.redemptions[o.redemptionId].fulfillmentRef == o.fulfillmentRef
      && d.redemptions[o.redemptionId].failureReason == o.failureReason
      && o.balanceAfter == Balance(d, input.userId)
      && (o.replay <==> FindByKey(db, input.userId, input.key).Some?)
      && (o.replay ==> d == db)
  {
    hide ReserveWith, Compensate, FindByKey;
    if FindByKey(db, input.userId, input.key).None? {
      var seen := db.rewards[input.rewardId];
      var row := ClaimRow(input, seen);
      ClaimedNotReplayed(db, ids.rid, row, seen.stock.Some?, ids.debit, at);
      ReserveShape(db, ids.rid, row, seen.stock.Some?, ids.debit, at);
      if f.Refused? {
        CompensatedRow(Reserve(db, input, ids.rid, ids.debit, at).0, Reservation(ids.rid, ids.debit, row.rewardId), f.reason, ids.refund, at);
      }
    }
  }

  lemma CompensatedRow(db: Db, v: Reservation, reason: string, eid: string, at: int)
    requires v.redemptionId in db.redemptions && db.redemptions[v.redemptionId].status == RESERVED
    requires Compensate(db, v, reason, eid, at).1.Ok?
    ensures Compensate(db, v, reason, eid, at).0.redemptions == MarkFailed(db, v.redemptionId, reason).redemptions
    ensures Compensate(db, v, reason, eid, at).1.value
  {
    hide Append;
    var m := MarkFailed(db, v.redemptionId, reason);
    AppendTouchesTwoTables(m, ReversalOf(FindRow(m.ledger, v.entryId).value), eid, at);
  }

  // ----- Allocating to one user -----

  function PerUserKey(allocationKey: string, u: string): string {
    allocationKey + ":" + u
  }

  function CompInput(u: string, cost: int, key: string): AppendInput {
    AppendInput(u, cost, ADJUSTMENT, ADMIN_SOURCE, Some(key), None, None, None, true)
  }

  datatype Given = ALLOCATED | NOT_ALLOCATED

  /** One user's turn: a committed credit, the redemption, and the credit taken back if that throws. */
  ghost function AllocateOne(db: Db, u: string, rw: string, cost: int, key: string, ids: Ids, at: int, f: Fulfilment)
    : (Db, Result<Given>)
  {
    var (credited, credit) := Append(db, CompInput(u, cost, key), ids.credit, at);
    if credit.Err? then (db, Err(credit.error))
    else
      var (d, r) := Redeem(credited, RedeemInput(u, rw, key), ids, at, f);
      if r.Ok? then (d, Ok(if r.value.status == FAILED then NOT_ALLOCATED else ALLOCATED))
      else
        var (undone, reversal) := Reverse(d, credit.value.transactionId, ids.undo, at);
        if reversal.Err? then (d, Err(reversal.error)) else (undone, Ok(NOT_ALLOCATED))
  }

  // ----- One allocation under a key nobody has used -----

  ghost predicate FreshIds(db: Db, ids: Ids) {
    && !HasId(db.ledger, ids.credit) && !HasId(db.ledger, ids.debit) && !HasId(db.ledger, ids.refund) && !HasId(db.ledger, ids.undo)
    && ids.credit != ids.debit && ids.credit != ids.refund && ids.credit != ids.undo
    && ids.debit != ids.refund && ids.debit != ids.undo && ids.refund != ids.undo
    && ids.rid !in db.redemptions
  }

  ghost predicate FreshKey(db: Db, u: string, key: string) {
    FindKey(db.ledger, ADMIN_SOURCE, Some(key)).None? && FindByKey(db, u, key).None?
  }

  ghost predicate Allocatable(db: Db, u: string, rw: string, cost: int, key: string, ids: Ids) {
    && Valid(db) && UserExists(db, u) && FreshIds(db, ids) && FreshKey(db, u, key)
    && rw in db.rewards && db.rewards[rw].cost == cost
  }

  function CreditRow(u: string, cost: int, key: string, ids: Ids, at: int): Entry {
    NewRow(CompInput(u, cost, key), ids.credit, at)
  }

  function Credited(db: Db, u: string, cost: int, key: string, ids: Ids, at: int): Db {
    Post(Materialise(db, u), CreditRow(u, cost, key, ids, at))
  }

  lemma CreditLands(db: Db, u: string, rw: string, cost: int, key: string, ids: Ids, at: int)
    requires Allocatable(db, u, rw, cost, key, ids)
    ensures Append(db, CompInput(u, cost, key), ids.credit, at)
      == (Credited(db, u, cost, key, ids, at), Ok(Appended(ids.credit, Balance(db, u) + cost, false)))
    ensures Valid(Credited(db, u, cost, key, ids, at))
  {
    hide Valid, FindByKey, Evolves;
    CostIsPositive(db, rw);
    assert ADMIN_SOURCE[0] == 'a' && PARTNER_PREFIX[0] == 'p' && REVERSAL_SOURCE[0] == 'r';
    AppendStepKeepsValid(db, CompInput(u, cost, key), ids.credit, at);
  }

  lemma CostIsPositive(db: Db, rw: string)
    requires Valid(db) && rw in db.rewards
    ensures db.rewards[rw].cost > 0
  {
    hide LedgerState, DeliveryInv, RulesInv, TagsSound, ClaimsUnique, AllAccounted;
  }

  /** The request is decided against the balance the credit leaves. */
  predicate Granted(db: Db, u: string, rw: string)
    requires rw in db.rewards
  {
    db.rewards[rw].active && InStock(db, rw) && Balance(db, u) >= 0
  }

  /** Granted, and its key can be claimed. */
  predicate Wins(db: Db, u: string, rw: string, f: Fulfilment)
    requires rw in db.rewards
  {
    Granted(db, u, rw) && !f.Unclaimable?
  }

  lemma StillFresh(db: Db, u: string, rw: string, cost: int, key: string, ids: Ids, at: int)
    requires Allocatable(db, u, rw, cost, key, ids)
    ensures var d := Credited(db, u, cost, key, ids, at);
      && Unused(d, u, Attempt(key, ids.rid, ids.debit, at))
      && !HasId(d.ledger, ids.refund) && !HasId(d.ledger, ids.undo)
      && UserExists(d, u) && rw in d.rewards && d.rewards == db.rewards
      && Balance(d, u) == Balance(db, u) + cost
      && CreditRow(u, cost, key, ids, at) in d.ledger
      && d.ledger == db.ledger + [CreditRow(u, cost, key, ids, at)]
      && d.redemptions == db.redemptions && d.users == db.users && db.rewards[rw].cost == cost
  {
    hide Valid;
    var d := Credited(db, u, cost, key, ids, at);
    assert d.ledger == db.ledger + [CreditRow(u, cost, key, ids, at)];
    assert d.ledger[|db.ledger|] == CreditRow(u, cost, key, ids, at);
  }

  lemma NothingReversesIt(db: Db, u: string, rw: string, cost: int, key: string, ids: Ids, at: int)
    requires Allocatable(db, u, rw, cost, key, ids)
    ensures !HasReversal(Credited(db, u, cost, key, ids, at).ledger, ids.credit)
  {
    hide RedemptionInv, DeliveryInv, RulesInv, FindByKey, FindKey;
    LedgerOfState(db);
    ReversalPush(db.ledger, CreditRow(u, cost, key, ids, at), ids.credit);
    if HasReversal(db.ledger, ids.credit) {
      ReversalTargetsExist(db.ledger, ids.credit);
      assert false;
    }
  }

  /** The request under the fresh key succeeds exactly when it is granted. */
  lemma GrantDecides(db: Db, u: string, rw: string, cost: int, key: string, ids: Ids, at: int)
    requires Allocatable(db, u, rw, cost, key, ids)
    ensures var d := Credited(db, u, cost, key, ids, at);
      var r := Reserve(d, RedeemInput(u, rw, key), ids.rid, ids.debit, at).1;
      && (r.Ok? <==> Granted(db, u, rw))
      && (r.Ok? ==> r.value.Claimed?)
  {
    StillFresh(db, u, rw, cost, key, ids, at);
    CostIsPositive(db, rw);
    hide Valid, ReserveWith, Credited, FreshIds, FreshKey;
    var d := Credited(db, u, cost, key, ids, at);
    if db.rewards[rw].active {
      AttemptDecided(d, u, rw, Attempt(key, ids.rid, ids.debit, at), cost);
    }
  }

  /** The first phase of the redemption is refused, and its transaction leaves nothing. */
  lemma RefusedRedeem(db: Db, u: string, rw: string, cost: int, key: string, ids: Ids, at: int, f: Fulfilment)
    requires Allocatable(db, u, rw, cost, key, ids) && !Wins(db, u, rw, f)
    ensures var d := Credited(db, u, cost, key, ids, at);
      var (after, r) := Redeem(d, RedeemInput(u, rw, key), ids, at, f);
      after == d && r.Err?
  {
    hide Reserve, Credited, Valid, FindByKey, FreshIds, FreshKey;
    GrantDecides(db, u, rw, cost, key, ids, at);
    StillFresh(db, u, rw, cost, key, ids, at);
  }

  lemma CreditCanBeTakenBack(d: Db, credit: Entry, undo: string, at: int)
    requires LedgerState(d) && credit in d.ledger && credit.redemptionId.None?
    requires !HasId(d.ledger, undo) && !HasReversal(d.ledger, credit.id)
    ensures Reverse(d, credit.id, undo, at).0 == Post(d, NewRow(ReversalOf(credit), undo, at))
    ensures Reverse(d, credit.id, undo, at).1.Ok?
  {
    hide Reverse, LedgerInv, FloorHolds, BalancesMatch, Post;
    var i :| 0 <= i < |d.ledger| && d.ledger[i] == credit;
    assert credit.userId in d.balances;
    ReverseShape(d, credit, undo, at);
  }

  lemma StateIsSound(db: Db)
    requires Valid(db)
    ensures LedgerState(db) && LedgerInv(db.ledger)
  {
    hide RedemptionInv, DeliveryInv, RulesInv;
    LedgerOfState(db);
  }

  /** Refused: the credit comes straight back out. */
  lemma RefusedAllocation(db: Db, u: string, rw: string, cost: int, key: string, ids: Ids, at: int, f: Fulfilment)
    requires Allocatable(db, u, rw, cost, key, ids) && !Wins(db, u, rw, f)
    ensures var credit := CreditRow(u, cost, key, ids, at);
      AllocateOne(db, u, rw, cost, key, ids, at, f) ==
        (Post(Credited(db, u, cost, key, ids, at), NewRow(ReversalOf(credit), ids.undo, at)), Ok(NOT_ALLOCATED))
  {
    hide Allocatable, Wins, Valid, LedgerState, Redeem, Append, Reverse, Unused, Credited, HasId, HasReversal, ReversalOf;
    CreditLands(db, u, rw, cost, key, ids, at);
    StillFresh(db, u, rw, cost, key, ids, at);
    NothingReversesIt(db, u, rw, cost, key, ids, at);
    RefusedRedeem(db, u, rw, cost, key, ids, at, f);
    var d := Credited(db, u, cost, key, ids, at);
    StateIsSound(d);
    CreditCanBeTakenBack(d, CreditRow(u, cost, key, ids, at), ids.undo, at);
  }

  // ----- Granted -----

  /** The redemption's own row and debit, as they stand once it has been reserved on top of the credit. */
  ghost predicate GrantPosted(db: Db, d: Db, u: string, rw: string, cost: int, key: string, ids: Ids, at: int)
    requires rw in db.rewards
  {
    var before := Credited(db, u, cost, key, ids, at);
    var row := ClaimRow(RedeemInput(u, rw, key), db.rewards[rw]);
    && Valid(d)
    && d.redemptions == db.redemptions[ids.rid := row]
    && d.ledger == before.ledger + [NewRow(DebitInput(ids.rid, row), ids.debit, at)]
    && d.balances == before.balances[u := Balance(db, u)]
    && rw in d.rewards
    && d.rewards == db.rewards[rw := d.rewards[rw]]
    && d.rewards[rw] == (if db.rewards[rw].stock.Some? then db.rewards[rw].(stock := Some(db.rewards[rw].stock.value - 1)) else db.rewards[rw])
    && d.users == db.users
  }

  lemma GrantedReservation(db: Db, u: string, rw: string, cost: int, key: string, ids: Ids, at: int)
    requires Allocatable(db, u, rw, cost, key, ids) && Granted(db, u, rw)
    ensures var (d, r) := Reserve(Credited(db, u, cost, key, ids, at), RedeemInput(u, rw, key), ids.rid, ids.debit, at);
      && GrantPosted(db, d, u, rw, cost, key, ids, at)
      && r.Ok? && r.value.Claimed? && r.value.reservation == Reservation(ids.rid, ids.debit, rw)
  {
    hide Valid, Evolves, ReserveWith, Allocatable, FindByKey, HasId;
    CreditLands(db, u, rw, cost, key, ids, at);
    StillFresh(db, u, rw, cost, key, ids, at);
    GrantDecides(db, u, rw, cost, key, ids, at);
    var before := Credited(db, u, cost, key, ids, at);
    var row := ClaimRow(RedeemInput(u, rw, key), before.rewards[rw]);
    var limited := row.rewardId in before.rewards && before.rewards[rw].stock.Some?;
    ReserveShape(before, ids.rid, row, limited, ids.debit, at);
    CostIsPositive(before, rw);
    ReserveStepKeepsValid(before, ids.rid, row, limited, ids.debit, at);
    var d := Reserve(before, RedeemInput(u, rw, key), ids.rid, ids.debit, at).0;
    assert d.rewards == db.rewards[rw := d.rewards[rw]];
  }

  // ----- What an allocation amounts to -----

  /** What the rows of an allocation add up to for its user. */
  function Net(granted: bool, cost: int, f: Fulfilment): int {
    if !granted then 0
    else match f
      case Issued(_) => 0
      case Refused(_) => cost
      case Unsettled => -cost
      case Unclaimable => 0
  }

  function StatusAfter(f: Fulfilment): RedemptionStatus {
    match f
    case Issued(_) => FULFILLED
    case Refused(_) => FAILED
    case _ => RESERVED
  }

  /** Rows were added for one user, summing to `net`, and no other balance moved. */
  ghost predicate Moved(db: Db, d: Db, u: string, net: int) {
    && db.ledger <= d.ledger
    && (forall i :: |db.ledger| <= i < |d.ledger| ==> d.ledger[i].userId == u)
    && Sum(d.ledger[|db.ledger|..], ByUser(u)) == net
    && (forall v :: Balance(d, v) == Balance(db, v) + (if v == u then net else 0))
  }

  predicate OwnRow(e: Entry, u: string, key: string, ids: Ids) {
    && e.userId == u
    && e.id in {ids.credit, ids.debit, ids.refund, ids.undo}
    && (e.source == ADMIN_SOURCE ==> e.eventId == Some(key))
  }

  /** Every row added is one the allocation generated for its user, and so is any redemption. */
  ghost predicate OnlyOwn(db: Db, d: Db, u: string, key: string, ids: Ids) {
    && db.ledger <= d.ledger
    && (forall i :: |db.ledger| <= i < |d.ledger| ==> OwnRow(d.ledger[i], u, key, ids))
    && (forall rid :: rid in d.redemptions && rid !in db.redemptions ==>
          rid == ids.rid && d.redemptions[rid].userId == u && d.redemptions[rid].key == key)
    && (forall rid :: rid in db.redemptions ==> rid in d.redemptions && d.redemptions[rid] == db.redemptions[rid])
  }

  lemma RowsMove(db: Db, d: Db, u: string, key: string, ids: Ids, rows: seq<Entry>)
    requires Valid(db) && Valid(d) && d.ledger == db.ledger + rows
    requires forall e :: e in rows ==> OwnRow(e, u, key, ids)
    requires d.redemptions == db.redemptions || (ids.rid !in db.redemptions && ids.rid in d.redemptions
      && d.redemptions == db.redemptions[ids.rid := d.redemptions[ids.rid]]
      && d.redemptions[ids.rid].userId == u && d.redemptions[ids.rid].key == key)
    ensures Moved(db, d, u, Sum(rows, ByUser(u))) && OnlyOwn(db, d, u, key, ids)
  {
    hide Valid, OwnRow, Moved;
    forall e | e in rows ensures e.userId == u {
      OwnRowOwner(e, u, key, ids);
    }
    UserRowsMove(db, d, u, rows);
    assert forall i :: 0 <= i < |rows| ==> rows[i] in rows;
  }

  lemma OwnRowOwner(e: Entry, u: string, key: string, ids: Ids)
    requires OwnRow(e, u, key, ids)
    ensures e.userId == u
  {
  }

  lemma UserRowsMove(db: Db, d: Db, u: string, rows: seq<Entry>)
    requires Valid(db) && Valid(d) && d.ledger == db.ledger + rows && forall e :: e in rows ==> e.userId == u
    ensures Moved(db, d, u, Sum(rows, ByUser(u)))
  {
    hide RedemptionInv, DeliveryInv, RulesInv, LedgerInv, FloorHolds, BalancesOwned;
    assert d.ledger[|db.ledger|..] == rows;
    forall v ensures Balance(d, v) == Balance(db, v) + (if v == u then Sum(rows, ByUser(u)) else 0) {
      SumConcat(db.ledger, rows, ByUser(v));
      assert Balance(d, v) == Sum(d.ledger, ByUser(v)) && Balance(db, v) == Sum(db.ledger, ByUser(v));
      if v != u {
        SumOfStranger(rows, v);
      }
    }
  }

  lemma SumOfRows(u: string, a: Entry, b: Entry, c: Entry)
    requires a.userId == u && b.userId == u && c.userId == u
    ensures Sum([a, b], ByUser(u)) == a.delta + b.delta
    ensures Sum([a, b, c], ByUser(u)) == a.delta + b.delta + c.delta
  {
    SumPush([], a, ByUser(u));
    SumPush([a], b, ByUser(u));
    SumPush([a, b], c, ByUser(u));
    assert [] + [a] == [a] && [a] + [b] == [a, b] && [a, b] + [c] == [a, b, c];
  }

  lemma CreditReversalKeepsValid(d: Db, credit: Entry, undo: string, at: int)
    requires Valid(d) && credit in d.ledger && credit.kind == ADJUSTMENT && credit.redemptionId.None?
    requires !HasId(d.ledger, undo) && !HasReversal(d.ledger, credit.id)
    ensures Valid(Reverse(d, credit.id, undo, at).0)
    ensures Reverse(d, credit.id, undo, at).0 == Post(d, NewRow(ReversalOf(credit), undo, at))
    ensures Reverse(d, credit.id, undo, at).1.Ok?
  {
    hide Valid, LedgerState, LedgerInv, Evolves, Append, Post, NewRow, HasReversal, HasId;
    StateIsSound(d);
    RowById(d.ledger, credit);
    CreditCanBeTakenBack(d, credit, undo, at);
    var i :| 0 <= i < |d.ledger| && d.ledger[i] == credit;
    assert Clawback(d.ledger, ReversalOf(credit));
    AppendStepKeepsValid(d, ReversalOf(credit), undo, at);
  }

  /** What each way an allocation can end leaves behind. */
  ghost predicate Ended(db: Db, d: Db, u: string, rw: string, cost: int, key: string, ids: Ids, granted: bool, f: Fulfilment)
    requires rw in db.rewards
  {
    && Valid(d)
    && Moved(db, d, u, Net(granted, cost, f)) && OnlyOwn(db, d, u, key, ids)
    && (if granted then
          ids.rid in d.redemptions && d.redemptions[ids.rid].status == StatusAfter(f) && d.redemptions[ids.rid].rewardId == rw
        else d.redemptions == db.redemptions)
    && rw in d.rewards
    && d.rewards[rw] == (if granted && !f.Refused? && db.rewards[rw].stock.Some? then
                           db.rewards[rw].(stock := Some(db.rewards[rw].stock.value - 1))
                         else db.rewards[rw])
    && d.rewards == db.rewards[rw := d.rewards[rw]]
    && d.users == db.users
  }

  lemma RefusedEnds(db: Db, u: string, rw: string, cost: int, key: string, ids: Ids, at: int, f: Fulfilment)
    requires Allocatable(db, u, rw, cost, key, ids) && !Wins(db, u, rw, f)
    ensures var (d, r) := AllocateOne(db, u, rw, cost, key, ids, at, f);
      Ended(db, d, u, rw, cost, key, ids, false, f) && r == Ok(NOT_ALLOCATED)
  {
    hide Valid, AllocateOne, Append, Reverse, FreshIds, FreshKey, Wins, HasReversal, HasId, Moved, OnlyOwn;
    RefusedAllocation(db, u, rw, cost, key, ids, at, f);
    CreditLands(db, u, rw, cost, key, ids, at);
    StillFresh(db, u, rw, cost, key, ids, at);
    NothingReversesIt(db, u, rw, cost, key, ids, at);
    var before, credit := Credited(db, u, cost, key, ids, at), CreditRow(u, cost, key, ids, at);
    CreditReversalKeepsValid(before, credit, ids.undo, at);
    var back := NewRow(ReversalOf(credit), ids.undo, at);
    var d := Post(before, back);
    assert d.ledger == db.ledger + [credit, back];
    SumOfRows(u, credit, back, back);
    RowsMove(db, d, u, key, ids, [credit, back]);
    assert d.rewards == db.rewards[rw := d.rewards[rw]];
  }

  lemma IssuedEnds(db: Db, u: string, rw: string, cost: int, key: string, ids: Ids, at: int, ref: string)
    requires Allocatable(db, u, rw, cost, key, ids) && Granted(db, u, rw)
    ensures var (d, r) := AllocateOne(db, u, rw, cost, key, ids, at, Issued(ref));
      Ended(db, d, u, rw, cost, key, ids, true, Issued(ref)) && r == Ok(ALLOCATED)
  {
    hide Valid, Append, Reserve, Evolves, FreshIds, FreshKey, HasId, FindByKey, Granted, Moved, OnlyOwn;
    CreditLands(db, u, rw, cost, key, ids, at);
    GrantedReservation(db, u, rw, cost, key, ids, at);
    StillFresh(db, u, rw, cost, key, ids, at);
    var before, credit := Credited(db, u, cost, key, ids, at), CreditRow(u, cost, key, ids, at);
    var reserved := Reserve(before, RedeemInput(u, rw, key), ids.rid, ids.debit, at).0;
    FulfilStepKeepsValid(reserved, ids.rid, ref);
    var d := Fulfil(reserved, ids.rid, ref);
    var debit := NewRow(DebitInput(ids.rid, ClaimRow(RedeemInput(u, rw, key), db.rewards[rw])), ids.debit, at);
    assert d.ledger == db.ledger + [credit, debit];
    SumOfRows(u, credit, debit, debit);
    RowsMove(db, d, u, key, ids, [credit, debit]);
  }

  lemma UnsettledEnds(db: Db, u: string, rw: string, cost: int, key: string, ids: Ids, at: int)
    requires Allocatable(db, u, rw, cost, key, ids) && Granted(db, u, rw)
    ensures var (d, r) := AllocateOne(db, u, rw, cost, key, ids, at, Unsettled);
      Ended(db, d, u, rw, cost, key, ids, true, Unsettled) && r == Ok(NOT_ALLOCATED)
  {
    hide Valid, Append, Reserve, Reverse, FreshKey, FindByKey, Granted, Moved, OnlyOwn, HasReversal;
    CreditLands(db, u, rw, cost, key, ids, at);
    GrantedReservation(db, u, rw, cost, key, ids, at);
    StillFresh(db, u, rw, cost, key, ids, at);
    NothingReversesIt(db, u, rw, cost, key, ids, at);
    var before, credit := Credited(db, u, cost, key, ids, at), CreditRow(u, cost, key, ids, at);
    var reserved := Reserve(before, RedeemInput(u, rw, key), ids.rid, ids.debit, at).0;
    var debit := NewRow(DebitInput(ids.rid, ClaimRow(RedeemInput(u, rw, key), db.rewards[rw])), ids.debit, at);
    ReversalPush(before.ledger, debit, ids.credit);
    CreditReversalKeepsValid(reserved, credit, ids.undo, at);
    var back := NewRow(ReversalOf(credit), ids.undo, at);
    var d := Post(reserved, back);
    assert d.ledger == db.ledger + [credit, debit, back];
    SumOfRows(u, credit, debit, back);
    RowsMove(db, d, u, key, ids, [credit, debit, back]);
  }

  lemma CompensationAdmissible(reserved: Db, rid: string, debit: Entry, v: Reservation, reason: string, refund: string, at: int)
    requires debit in reserved.ledger && rid in reserved.redemptions
    requires DebitFor(debit, rid, reserved.redemptions[rid])
    requires v == Reservation(rid, debit.id, reserved.redemptions[rid].rewardId)
    ensures Admissible(AtomCompensate(v, reason, debit, refund, at), reserved)
  {
  }

  /** Compensating a reservation just made returns the unit and mirrors the debit. */
  lemma GrantCompensated(reserved: Db, rid: string, debit: Entry, v: Reservation, reason: string, refund: string, at: int)
    requires Valid(reserved) && debit in reserved.ledger && !HasId(reserved.ledger, refund)
    requires rid in reserved.redemptions && reserved.redemptions[rid].status == RESERVED
    requires DebitFor(debit, rid, reserved.redemptions[rid])
    requires v == Reservation(rid, debit.id, reserved.redemptions[rid].rewardId)
    ensures var (d, r) := Compensate(reserved, v, reason, refund, at);
      && r == Ok(true) && Valid(d)
      && d == ReturnUnit(Post(MarkFailed(reserved, rid, reason), NewRow(ReversalOf(debit), refund, at)), v.rewardId)
  {
    ValidParts(reserved);
    hide Valid, LedgerState, RedemptionInv, Compensate, Evolves, Post, MarkFailed, ReturnUnit, HasId, Admissible, NewRow, ReversalOf;
    CompensateShape(reserved, v, reason, refund, at, debit);
    CompensationAdmissible(reserved, rid, debit, v, reason, refund, at);
    CompensateStepKeepsValid(reserved, v, reason, debit, refund, at);
  }

  lemma UnitBack(db: Db, rw: string)
    requires rw in db.rewards
    ensures var d := ReturnUnit(db, rw);
      && d == db.(rewards := db.rewards[rw := d.rewards[rw]]) && rw in d.rewards
      && d.rewards[rw] == db.rewards[rw].(stock := d.rewards[rw].stock)
      && d.rewards[rw].stock == (if db.rewards[rw].stock.Some? then Some(db.rewards[rw].stock.value + 1) else None)
  {
    assert db.rewards == db.rewards[rw := db.rewards[rw]];
  }

  /** A compensated reservation, table by table. */
  lemma Undone(db: Db, rid: string, reason: string, back: Entry, rw: string)
    requires rid in db.redemptions && rw in db.rewards
    ensures var d := ReturnUnit(Post(MarkFailed(db, rid, reason), back), rw);
      && d.ledger == db.ledger + [back] && d.users == db.users
      && d.redemptions == db.redemptions[rid := db.redemptions[rid].(status := FAILED, failureReason := Some(reason))]
      && rw in d.rewards && d.rewards == db.rewards[rw := d.rewards[rw]]
      && d.rewards[rw] == db.rewards[rw].(stock := d.rewards[rw].stock)
      && d.rewards[rw].stock == (if db.rewards[rw].stock.Some? then Some(db.rewards[rw].stock.value + 1) else None)
  {
    hide ReturnUnit;
    UnitBack(Post(MarkFailed(db, rid, reason), back), rw);
  }

  lemma ValidParts(db: Db)
    requires Valid(db)
    ensures LedgerState(db) && RedemptionInv(db)
  {
  }

  lemma RefusedFulfilmentEnds(db: Db, u: string, rw: string, cost: int, key: string, ids: Ids, at: int, reason: string)
    requires Allocatable(db, u, rw, cost, key, ids) && Granted(db, u, rw)
    ensures var (d, r) := AllocateOne(db, u, rw, cost, key, ids, at, Refused(reason));
      Ended(db, d, u, rw, cost, key, ids, true, Refused(reason)) && r == Ok(NOT_ALLOCATED)
  {
    hide Valid, Append, Reserve, Compensate, FreshKey, FindByKey, Granted, Moved, OnlyOwn, ReturnUnit, Credited, Post, MarkFailed;
    CreditLands(db, u, rw, cost, key, ids, at);
    GrantedReservation(db, u, rw, cost, key, ids, at);
    StillFresh(db, u, rw, cost, key, ids, at);
    var before, credit := Credited(db, u, cost, key, ids, at), CreditRow(u, cost, key, ids, at);
    var reserved := Reserve(before, RedeemInput(u, rw, key), ids.rid, ids.debit, at).0;
    var debit := NewRow(DebitInput(ids.rid, ClaimRow(RedeemInput(u, rw, key), db.rewards[rw])), ids.debit, at);
    assert reserved.ledger[|before.ledger|] == debit;
    GrantCompensated(reserved, ids.rid, debit, Reservation(ids.rid, ids.debit, rw), reason, ids.refund, at);
    var d := Compensate(reserved, Reservation(ids.rid, ids.debit, rw), reason, ids.refund, at).0;
    var back := NewRow(ReversalOf(debit), ids.refund, at);
    Undone(reserved, ids.rid, reason, back, rw);
    assert d.ledger == db.ledger + [credit, debit, back];
    SumOfRows(u, credit, debit, back);
    RowsMove(db, d, u, key, ids, [credit, debit, back]);
    assert d.rewards == db.rewards[rw := d.rewards[rw]];
  }

  /** Under a fresh key: the rows an allocation causes sum to zero when the reward is given and when the
      request is refused or its key cannot be claimed, to the whole price when fulfilment fails, since its debit is refunded and its credit
      stands, and to minus the price when the answer cannot be recorded, since then the credit is taken back
      while the reservation stands. */
  lemma AllocationNets(db: Db, u: string, rw: string, cost: int, key: string, ids: Ids, at: int, f: Fulfilment)
    requires Allocatable(db, u, rw, cost, key, ids)
    ensures var (d, r) := AllocateOne(db, u, rw, cost, key, ids, at, f);
      && Ended(db, d, u, rw, cost, key, ids, Wins(db, u, rw, f), f)
      && r == Ok(if Wins(db, u, rw, f) && f.Issued? then ALLOCATED else NOT_ALLOCATED)
  {
    hide Valid, FreshIds, FreshKey, Granted, AllocateOne, Ended;
    if !Wins(db, u, rw, f) {
      RefusedEnds(db, u, rw, cost, key, ids, at, f);
    } else {
      match f
      case Issued(ref) => IssuedEnds(db, u, rw, cost, key, ids, at, ref);
      case Refused(reason) => RefusedFulfilmentEnds(db, u, rw, cost, key, ids, at, reason);
      case Unsettled => UnsettledEnds(db, u, rw, cost, key, ids, at);
    }
  }

  // ----- Running it again -----

  /** A run that stopped between the credit and the redemption is resumed by running it again: the second
      run does exactly what the first would have done. */
  lemma CrashedRunResumes(db: Db, u: string, rw: string, cost: int, key: string, ids: Ids, retry: string, at: int, at': int, f: Fulfilment)
    requires Valid(db) && Append(db, CompInput(u, cost, key), ids.credit, at).1.Ok?
    ensures var (credited, credit) := Append(db, CompInput(u, cost, key), ids.credit, at);
      var (again, second) := Append(credited, CompInput(u, cost, key), retry, at');
      again == credited && second.Ok? && second.value.transactionId == credit.value.transactionId && second.value.duplicate
    ensures var credited := Append(db, CompInput(u, cost, key), ids.credit, at).0;
      AllocateOne(credited, u, rw, cost, key, ids.(credit := retry), at, f) == AllocateOne(db, u, rw, cost, key, ids, at, f)
  {
    ValidParts(db);
    hide Valid, Redeem, Reverse, LedgerState, Append;
    AppendTwiceIsOnce(db, CompInput(u, cost, key), ids.credit, at, retry, at');
    AppendTwiceIsOnce(db, CompInput(u, cost, key), ids.credit, at, retry, at);
    RedeemIgnoresCreditId(Append(db, CompInput(u, cost, key), ids.credit, at).0, RedeemInput(u, rw, key), ids, retry, at, f);
  }

  lemma RedeemIgnoresCreditId(db: Db, input: RedeemInput, ids: Ids, retry: string, at: int, f: Fulfilment)
    ensures Redeem(db, input, ids.(credit := retry), at, f) == Redeem(db, input, ids, at, f)
  {
    hide Reserve, Compensate, Fulfil;
  }

  /** Once a key's redemption has committed, running it again adds no row and moves no point and no unit;
      it only reports how that redemption stands. */
  lemma RerunMovesNothing(db: Db, u: string, rw: string, cost: int, key: string, ids: Ids, at: int, f: Fulfilment)
    requires Valid(db) && UserExists(db, u) && cost > 0
    requires FindKey(db.ledger, ADMIN_SOURCE, Some(key)).Some? && FindByKey(db, u, key).Some?
    ensures var (d, r) := AllocateOne(db, u, rw, cost, key, ids, at, f);
      && d.ledger == db.ledger && d.rewards == db.rewards && d.redemptions == db.redemptions
      && (forall v :: Balance(d, v) == Balance(db, v))
      && r == Ok(if db.redemptions[FindByKey(db, u, key).value].status == FAILED then NOT_ALLOCATED else ALLOCATED)
  {
    hide Valid, FindByKey, Append, Materialise;
    CreditAlreadyThere(db, u, cost, key, ids, at);
    MaterialisedTables(db, u);
    OneClaim(db, Materialise(db, u), u, key);
  }

  lemma OneClaim(db: Db, m: Db, u: string, key: string)
    requires Valid(db) && m.redemptions == db.redemptions
    ensures FindByKey(m, u, key) == FindByKey(db, u, key)
  {
    hide LedgerState, DeliveryInv, RulesInv, TagsSound, AllAccounted, RowsSound;
  }

  /** The rows an allocation key has caused: its credit, the credit's reversal, and its redemption's rows. */
  function CausedBy(c: Entry, rid: string): Entry -> bool {
    (e: Entry) => e == c || e.reversesId == Some(c.id) || e.redemptionId == Some(rid)
  }

  lemma {:induction false} SumOfNone(l: seq<Entry>, p: Entry -> bool)
    requires forall i :: 0 <= i < |l| ==> !p(l[i])
    ensures Sum(l, p) == 0
  {
    if l != [] {
      SumOfNone(l[..|l| - 1], p);
    }
  }

  /** A sum over the one row selected. */
  lemma SumOfOne(l: seq<Entry>, p: Entry -> bool, i: nat)
    requires i < |l| && p(l[i]) && forall j :: 0 <= j < |l| && j != i ==> !p(l[j])
    ensures Sum(l, p) == l[i].delta
  {
    SumOfNone(l[..i], p);
    SumOfNone(l[i + 1..], p);
    SumPush(l[..i], l[i], p);
    SumConcat(l[..i] + [l[i]], l[i + 1..], p);
    assert l == l[..i] + [l[i]] + l[i + 1..];
  }

  /** A sum over the two rows selected. */
  lemma SumOfTwo(l: seq<Entry>, p: Entry -> bool, i: nat, k: nat)
    requires i < k < |l| && p(l[i]) && p(l[k]) && forall j :: 0 <= j < |l| && j != i && j != k ==> !p(l[j])
    ensures Sum(l, p) == l[i].delta + l[k].delta
  {
    SumOfOne(l[..k], p, i);
    SumOfNone(l[k + 1..], p);
    SumPush(l[..k], l[k], p);
    SumConcat(l[..k] + [l[k]], l[k + 1..], p);
    assert l == l[..k] + [l[k]] + l[k + 1..];
  }

  /** What the key has caused so far: its credit, unless that has been taken back. */
  lemma CausedSoFar(db: Db, c: Entry, key: string, rid: string)
    requires Valid(db) && c in db.ledger && HoldsKey(c, ADMIN_SOURCE, Some(key)) && rid !in db.redemptions
    ensures Sum(db.ledger, CausedBy(c, rid)) == (if HasReversal(db.ledger, c.id) then 0 else c.delta)
  {
    AdminRow(db, c, key);
    NoRowsTagged(db, rid);
    StateIsSound(db);
    hide Valid, LedgerState, LedgerInv, HoldsKey;
    var l, p := db.ledger, CausedBy(c, rid);
    var i :| 0 <= i < |l| && l[i] == c;
    RowsAreDistinct(l);
    if HasReversal(l, c.id) {
      var e :| e in l && e.reversesId == Some(c.id);
      var k :| 0 <= k < |l| && l[k] == e;
      ReversesAt(l, k, i);
      assert forall j :: 0 <= j < |l| && j != i && j != k ==> !p(l[j]);
      SumOfTwo(l, p, i, k);
    } else {
      SumOfOne(l, p, i);
    }
  }

  lemma NoRowsTagged(db: Db, rid: string)
    requires Valid(db) && rid !in db.redemptions
    ensures forall i :: 0 <= i < |db.ledger| ==> db.ledger[i].redemptionId != Some(rid)
  {
    hide LedgerState, DeliveryInv, RulesInv, AllAccounted, ClaimsUnique, RowsSound;
  }

  lemma RowsAreDistinct(l: seq<Entry>)
    requires LedgerInv(l)
    ensures forall i, j :: 0 <= i < |l| && 0 <= j < |l| && i != j ==> l[i] != l[j]
  {
    hide DistinctKeys, WellLabelled, UndoesEarlier;
    forall i, j | 0 <= i < |l| && 0 <= j < |l| && i != j ensures l[i] != l[j] {
      assert if i < j then l[i].id != l[j].id else l[j].id != l[i].id;
    }
  }

  /** The reversal of a row comes after it, mirrors it, and is the only one. */
  lemma ReversesAt(l: seq<Entry>, k: nat, i: nat)
    requires LedgerInv(l) && k < |l| && i < |l| && l[k].reversesId == Some(l[i].id)
    ensures i < k && l[k].delta == -l[i].delta
    ensures forall m :: 0 <= m < |l| && l[m].reversesId == Some(l[i].id) ==> m == k
  {
    ChainsAreDisjoint(l, k, i);
    hide LedgerInv;
    forall m | 0 <= m < |l| && l[m].reversesId == Some(l[i].id) ensures m == k {
      assert Reverses(l, m, i);
    }
  }

  // ----- Running a key again that holds its credit but no redemption -----

  ghost predicate Rerunnable(db: Db, u: string, rw: string, cost: int, key: string, ids: Ids, c: Entry) {
    && Valid(db) && UserExists(db, u) && OnShelf(db, rw, cost)
    && c in db.ledger && HoldsKey(c, ADMIN_SOURCE, Some(key)) && c.userId == u
    && FindByKey(db, u, key).None? && FreshIds(db, ids)
  }

  predicate OnShelf(db: Db, rw: string, cost: int) {
    rw in db.rewards && db.rewards[rw].cost == cost
  }

  /** Whether the rerun's own request is granted, against the balance as it is: it brings no credit of its own. */
  predicate Payable(db: Db, u: string, rw: string, cost: int)
    requires rw in db.rewards
  {
    db.rewards[rw].active && InStock(db, rw) && Balance(db, u) >= cost
  }

  lemma CreditIsFound(db: Db, u: string, rw: string, cost: int, key: string, ids: Ids, c: Entry, at: int)
    requires Rerunnable(db, u, rw, cost, key, ids, c)
    ensures Append(db, CompInput(u, cost, key), ids.credit, at)
      == (Materialise(db, u), Ok(Appended(c.id, Balance(db, u), true)))
    ensures Materialise(db, u) == db && u in db.balances
  {
    CostIsPositive(db, rw);
    StateIsSound(db);
    hide Valid, FindByKey, LedgerInv, FreshIds, BalancesMatch, FloorHolds;
    var i :| 0 <= i < |db.ledger| && db.ledger[i] == c;
    assert c.userId in db.balances;
    KeyNamesItsRow(db.ledger, c, ADMIN_SOURCE, Some(key));
  }

  lemma KeyNamesItsRow(l: seq<Entry>, c: Entry, source: string, eventId: Option<string>)
    requires LedgerInv(l) && c in l && HoldsKey(c, source, eventId)
    ensures FindKey(l, source, eventId) == Some(c.id)
  {
    hide WellLabelled, UndoesEarlier, DistinctIds;
    var i :| 0 <= i < |l| && l[i] == c;
    assert FindKey(l, source, eventId).Some?;
    var j :| 0 <= j < |l| && HoldsKey(l[j], source, eventId) && l[j].id == FindKey(l, source, eventId).value;
    assert i == j;
  }

  function RerunDebit(db: Db, u: string, rw: string, key: string, ids: Ids, at: int): Entry
    requires rw in db.rewards
  {
    NewRow(DebitInput(ids.rid, ClaimRow(RedeemInput(u, rw, key), db.rewards[rw])), ids.debit, at)
  }

  /** The reservation of a rerun that is granted adds one debit. */
  lemma RerunReserves(db: Db, u: string, rw: string, cost: int, key: string, ids: Ids, c: Entry, at: int)
    requires Rerunnable(db, u, rw, cost, key, ids, c) && Payable(db, u, rw, cost)
    ensures var (d, r) := Reserve(db, RedeemInput(u, rw, key), ids.rid, ids.debit, at);
      && r.Ok? && r.value.Claimed? && r.value.reservation == Reservation(ids.rid, ids.debit, rw)
      && Valid(d) && d.ledger == db.ledger + [RerunDebit(db, u, rw, key, ids, at)]
      && ids.rid in d.redemptions && d.redemptions[ids.rid] == ClaimRow(RedeemInput(u, rw, key), db.rewards[rw])
  {
    CostIsPositive(db, rw);
    hide Valid, Append, ReserveWith, FindByKey, HasId, LedgerState, Balance, Materialise, Evolves;
    AttemptDecided(db, u, rw, Attempt(key, ids.rid, ids.debit, at), cost);
    var seen := db.rewards[rw];
    ReserveShape(db, ids.rid, ClaimRow(RedeemInput(u, rw, key), seen), seen.stock.Some?, ids.debit, at);
    ReserveKeepsValid(db, RedeemInput(u, rw, key), ids.rid, ids.debit, at);
  }

  /** A rerun finds its credit, so it is its redemption, undone if that throws. */
  lemma RerunRedeems(db: Db, u: string, rw: string, cost: int, key: string, ids: Ids, c: Entry, at: int, f: Fulfilment)
    requires Rerunnable(db, u, rw, cost, key, ids, c)
    ensures var (d, r) := Redeem(db, RedeemInput(u, rw, key), ids, at, f);
      var (undone, reversal) := Reverse(d, c.id, ids.undo, at);
      AllocateOne(db, u, rw, cost, key, ids, at, f) ==
        if r.Ok? then (d, Ok(if r.value.status == FAILED then NOT_ALLOCATED else ALLOCATED))
        else if reversal.Err? then (d, Err(reversal.error)) else (undone, Ok(NOT_ALLOCATED))
  {
    hide Rerunnable, Append, Redeem, Reverse, Materialise;
    CreditIsFound(db, u, rw, cost, key, ids, c, at);
  }

  /** How a redemption whose reservation goes through ends. */
  lemma ReservedRedeems(db: Db, input: RedeemInput, ids: Ids, at: int, f: Fulfilment)
    requires Reserve(db, input, ids.rid, ids.debit, at).1.Ok? && Reserve(db, input, ids.rid, ids.debit, at).1.value.Claimed?
    ensures var (reserved, v) := Reserve(db, input, ids.rid, ids.debit, at);
      var (d, r) := Redeem(db, input, ids, at, f);
      match f
      case Issued(ref) => d == Fulfil(reserved, ids.rid, ref) && r.Ok? && r.value.status == FULFILLED
      case Refused(reason) =>
        var (c, done) := Compensate(reserved, v.value.reservation, reason, ids.refund, at);
        done.Ok? ==> d == c && r.Ok? && r.value.status == FAILED
      case Unsettled => d == reserved && r.Err?
      case Unclaimable => true
  {
    hide Reserve, Compensate, FindByKey;
  }

  /** A delivered rerun that is granted adds one debit. */
  lemma GrantedRerun(db: Db, u: string, rw: string, cost: int, key: string, ids: Ids, c: Entry, at: int, ref: string)
    requires Rerunnable(db, u, rw, cost, key, ids, c) && Payable(db, u, rw, cost)
    ensures var (d, r) := AllocateOne(db, u, rw, cost, key, ids, at, Issued(ref));
      && r == Ok(ALLOCATED)
      && d.ledger == db.ledger + [RerunDebit(db, u, rw, key, ids, at)]
  {
    hide Rerunnable, Redeem, Reserve, Reverse, Payable, Valid, AllocateOne, RerunDebit;
    RerunRedeems(db, u, rw, cost, key, ids, c, at, Issued(ref));
    RerunReserves(db, u, rw, cost, key, ids, c, at);
    ReservedRedeems(db, RedeemInput(u, rw, key), ids, at, Issued(ref));
  }

  /** One whose fulfilment is refused adds its debit and the refund. */
  lemma RefundedRerun(db: Db, u: string, rw: string, cost: int, key: string, ids: Ids, c: Entry, at: int, reason: string)
    requires Rerunnable(db, u, rw, cost, key, ids, c) && Payable(db, u, rw, cost)
    ensures var (d, r) := AllocateOne(db, u, rw, cost, key, ids, at, Refused(reason));
      var debit := RerunDebit(db, u, rw, key, ids, at);
      && r == Ok(NOT_ALLOCATED)
      && d.ledger == db.ledger + [debit] + [NewRow(ReversalOf(debit), ids.refund, at)]
  {
    hide Rerunnable, Redeem, Reserve, Reverse, Payable, Valid, AllocateOne, Compensate, Post, MarkFailed, ReturnUnit;
    RerunFacts(db, u, rw, cost, key, ids, c);
    RerunRedeems(db, u, rw, cost, key, ids, c, at, Refused(reason));
    RerunReserves(db, u, rw, cost, key, ids, c, at);
    ReservedRedeems(db, RedeemInput(u, rw, key), ids, at, Refused(reason));
    var debit := RerunDebit(db, u, rw, key, ids, at);
    var reserved := Reserve(db, RedeemInput(u, rw, key), ids.rid, ids.debit, at).0;
    assert reserved.ledger[|db.ledger|] == debit;
    RefundIsNew(db, u, rw, cost, key, ids, c, debit);
    GrantCompensated(reserved, ids.rid, debit, Reservation(ids.rid, ids.debit, rw), reason, ids.refund, at);
    RefundedLedger(reserved, ids.rid, reason, NewRow(ReversalOf(debit), ids.refund, at), rw);
  }

  lemma RefundIsNew(db: Db, u: string, rw: string, cost: int, key: string, ids: Ids, c: Entry, debit: Entry)
    requires Rerunnable(db, u, rw, cost, key, ids, c) && debit.id == ids.debit
    ensures !HasId(db.ledger + [debit], ids.refund) && !HasId(db.ledger + [debit], ids.undo)
    ensures c in db.ledger && HoldsKey(c, ADMIN_SOURCE, Some(key)) && Valid(db)
  {
    hide Valid, FindByKey;
  }

  lemma RefundedLedger(db: Db, rid: string, reason: string, back: Entry, rw: string)
    requires rid in db.redemptions
    ensures ReturnUnit(Post(MarkFailed(db, rid, reason), back), rw).ledger == db.ledger + [back]
  {
  }

  /** One whose answer cannot be recorded adds its debit and takes the credit back, unless that was done already. */
  lemma UnsettledRerun(db: Db, u: string, rw: string, cost: int, key: string, ids: Ids, c: Entry, at: int)
    requires Rerunnable(db, u, rw, cost, key, ids, c) && Payable(db, u, rw, cost)
    ensures var (d, r) := AllocateOne(db, u, rw, cost, key, ids, at, Unsettled);
      var reserved := db.ledger + [RerunDebit(db, u, rw, key, ids, at)];
      && r == Ok(NOT_ALLOCATED)
      && d.ledger == (if HasReversal(db.ledger, c.id) then reserved else reserved + [NewRow(ReversalOf(c), ids.undo, at)])
  {
    hide Rerunnable, Redeem, Reserve, Reverse, Payable, Valid, AllocateOne, LedgerState, LedgerInv, HasId, HasReversal, HoldsKey, Post;
    RerunFacts(db, u, rw, cost, key, ids, c);
    RerunRedeems(db, u, rw, cost, key, ids, c, at, Unsettled);
    RerunReserves(db, u, rw, cost, key, ids, c, at);
    ReservedRedeems(db, RedeemInput(u, rw, key), ids, at, Unsettled);
    var debit := RerunDebit(db, u, rw, key, ids, at);
    RefundIsNew(db, u, rw, cost, key, ids, c, debit);
    AdminRow(db, c, key);
    ReversalPush(db.ledger, debit, c.id);
    var reserved := Reserve(db, RedeemInput(u, rw, key), ids.rid, ids.debit, at).0;
    StateIsSound(reserved);
    RowsOnly(db.ledger, debit, c);
    if HasReversal(db.ledger, c.id) {
      UndoneAlready(reserved, c, ids.undo, at);
    } else {
      CreditCanBeTakenBack(reserved, c, ids.undo, at);
      PostedLedger(reserved, NewRow(ReversalOf(c), ids.undo, at));
    }
  }

  /** One that is refused takes the credit back, unless that was done already. */
  lemma RefusedRerun(db: Db, u: string, rw: string, cost: int, key: string, ids: Ids, c: Entry, at: int, f: Fulfilment)
    requires Rerunnable(db, u, rw, cost, key, ids, c) && (!Payable(db, u, rw, cost) || f.Unclaimable?)
    ensures var (d, r) := AllocateOne(db, u, rw, cost, key, ids, at, f);
      && r == Ok(NOT_ALLOCATED)
      && d.ledger == (if HasReversal(db.ledger, c.id) then db.ledger else db.ledger + [NewRow(ReversalOf(c), ids.undo, at)])
  {
    CreditIsFound(db, u, rw, cost, key, ids, c, at);
    RerunRefused(db, u, rw, cost, key, ids, c, at, f);
    AdminRow(db, c, key);
    StateIsSound(db);
    hide Valid, Append, Redeem, FindByKey, HasId, LedgerState, LedgerInv, Balance, Materialise, Reverse, Payable, HasReversal, Post;
    if HasReversal(db.ledger, c.id) {
      UndoneAlready(db, c, ids.undo, at);
    } else {
      CreditCanBeTakenBack(db, c, ids.undo, at);
      PostedLedger(db, NewRow(ReversalOf(c), ids.undo, at));
    }
  }

  lemma PostedLedger(db: Db, e: Entry)
    ensures Post(db, e).ledger == db.ledger + [e]
  {
  }

  lemma RerunRefused(db: Db, u: string, rw: string, cost: int, key: string, ids: Ids, c: Entry, at: int, f: Fulfilment)
    requires Rerunnable(db, u, rw, cost, key, ids, c) && (!Payable(db, u, rw, cost) || f.Unclaimable?)
    ensures var (d, r) := Redeem(db, RedeemInput(u, rw, key), ids, at, f);
      d == db && r.Err?
  {
    CostIsPositive(db, rw);
    hide Valid, ReserveWith, FindByKey, HasId, Balance;
    if db.rewards[rw].active {
      AttemptDecided(db, u, rw, Attempt(key, ids.rid, ids.debit, at), cost);
    }
  }

  /** Reversing a row again finds its reversal and moves nothing. */
  lemma UndoneAlready(db: Db, c: Entry, undo: string, at: int)
    requires LedgerState(db) && c in db.ledger && HasReversal(db.ledger, c.id)
    ensures var (d, r) := Reverse(db, c.id, undo, at); d == db && r.Ok?
  {
    hide FloorHolds, BalancesMatch, InputSound, UndoesEarlier, DistinctIds, DistinctKeys;
    RowById(db.ledger, c);
    ReversalIsSound(db.ledger, c);
    ReversalGuardNeverFires(db.ledger, ReversalOf(c));
    var i :| 0 <= i < |db.ledger| && db.ledger[i] == c;
    assert WellLabelled(db.ledger[i]) && c.userId in db.balances;
  }

  /** What a key's rows net to over both runs, `base` being what the first run left of its credit. */
  function RerunNet(wins: bool, base: int, cost: int, f: Fulfilment): int {
    if !wins then 0
    else match f
      case Issued(_) => base - cost
      case Refused(_) => base
      case Unsettled => -cost
      case Unclaimable => 0
  }

  /** Exactly when running a key again makes the user pay, however the second run ends. Over both runs the key's
      rows net to minus the price if and only if the request is granted and either its reward is issued although
      the key's credit had been taken back, or its answer cannot be recorded. They net to the price, a gift, if
      and only if it is granted, fulfilment is refused and the credit still stands. Otherwise they net to nothing,
      whether the first run had crashed before its redemption or had been refused. (If the price changed in
      between, the difference stays with the user or the house.) */
  lemma RerunNets(db: Db, u: string, rw: string, cost: int, key: string, ids: Ids, c: Entry, at: int, f: Fulfilment)
    requires Rerunnable(db, u, rw, cost, key, ids, c)
    ensures var (d, r) := AllocateOne(db, u, rw, cost, key, ids, at, f);
      var net := Sum(d.ledger, CausedBy(c, ids.rid));
      var undone := HasReversal(db.ledger, c.id);
      var wins := db.rewards[rw].active && InStock(db, rw) && Balance(db, u) >= cost && !f.Unclaimable?;
      && r == Ok(if wins && f.Issued? then ALLOCATED else NOT_ALLOCATED)
      && net == RerunNet(wins, if undone then 0 else c.delta, cost, f)
      && (c.delta == cost ==>
            && (net == -cost <==> wins && (f.Unsettled? || (f.Issued? && undone)))
            && (net == cost <==> wins && f.Refused? && !undone)
            && net in {-cost, 0, cost})
  {
    hide Rerunnable, AllocateOne, Valid, Balance, HasReversal, NewRow, ReversalOf, RerunDebit, HoldsKey;
    RerunFacts(db, u, rw, cost, key, ids, c);
    RerunRowSums(db, u, rw, key, ids, c, at);
    if !Payable(db, u, rw, cost) || f.Unclaimable? {
      RefusedRerun(db, u, rw, cost, key, ids, c, at, f);
    } else {
      match f
      case Issued(ref) => GrantedRerun(db, u, rw, cost, key, ids, c, at, ref);
      case Refused(reason) => RefundedRerun(db, u, rw, cost, key, ids, c, at, reason);
      case _ => UnsettledRerun(db, u, rw, cost, key, ids, c, at);
    }
  }

  lemma RerunFacts(db: Db, u: string, rw: string, cost: int, key: string, ids: Ids, c: Entry)
    requires Rerunnable(db, u, rw, cost, key, ids, c)
    ensures rw in db.rewards && db.rewards[rw].cost == cost && cost > 0
    ensures Sum(db.ledger, CausedBy(c, ids.rid)) == (if HasReversal(db.ledger, c.id) then 0 else c.delta)
  {
    hide Valid, FindByKey, HasReversal;
    CostIsPositive(db, rw);
    CausedSoFar(db, c, key, ids.rid);
  }

  /** What each row a rerun can add is worth to its key. */
  lemma RerunRowSums(db: Db, u: string, rw: string, key: string, ids: Ids, c: Entry, at: int)
    requires rw in db.rewards
    ensures var l, p, debit := db.ledger, CausedBy(c, ids.rid), RerunDebit(db, u, rw, key, ids, at);
      var refund, back := NewRow(ReversalOf(debit), ids.refund, at), NewRow(ReversalOf(c), ids.undo, at);
      && Sum(l + [debit], p) == Sum(l, p) - db.rewards[rw].cost
      && Sum(l + [debit] + [refund], p) == Sum(l, p)
      && Sum(l + [debit] + [back], p) == Sum(l, p) - db.rewards[rw].cost - c.delta
      && Sum(l + [back], p) == Sum(l, p) - c.delta
  {
    var p, debit := CausedBy(c, ids.rid), RerunDebit(db, u, rw, key, ids, at);
    var refund, back := NewRow(ReversalOf(debit), ids.refund, at), NewRow(ReversalOf(c), ids.undo, at);
    SumPush(db.ledger, debit, p);
    SumPush(db.ledger + [debit], refund, p);
    SumPush(db.ledger + [debit], back, p);
    SumPush(db.ledger, back, p);
  }

  lemma MaterialisedTables(db: Db, u: string)
    ensures var m := Materialise(db, u);
      m == db.(balances := m.balances) && (forall v :: Balance(m, v) == Balance(db, v))
  {
  }

  lemma CreditAlreadyThere(db: Db, u: string, cost: int, key: string, ids: Ids, at: int)
    requires UserExists(db, u) && cost > 0 && FindKey(db.ledger, ADMIN_SOURCE, Some(key)).Some?
    ensures var (d, r) := Append(db, CompInput(u, cost, key), ids.credit, at);
      d == Materialise(db, u) && r.Ok? && r.value.duplicate
  {
  }

  // ----- A list of users -----

  /** One allocation after another, each user with an outcome of their own; only an unexpected error stops it. */
  ghost function AllocateAll(db: Db, rw: string, cost: int, users: seq<string>, allocationKey: string,
                             ids: string -> Ids, at: int, fs: string -> Fulfilment): (Db, Result<seq<Given>>)
    decreases |users|
  {
    if users == [] then (db, Ok([]))
    else
      var u := users[0];
      var (d, r) := AllocateOne(db, u, rw, cost, PerUserKey(allocationKey, u), ids(u), at, fs(u));
      if r.Err? then (d, Err(r.error))
      else
        var (e, rest) := AllocateAll(d, rw, cost, users[1..], allocationKey, ids, at, fs);
        (e, if rest.Err? then Err(rest.error) else Ok([r.value] + rest.value))
  }

  ghost function AllocateReward(db: Db, rw: string, users: seq<string>, allocationKey: string,
                                ids: string -> Ids, at: int, fs: string -> Fulfilment): (Db, Result<seq<Given>>)
  {
    if rw !in db.rewards then (db, Err(RewardNotFound(rw)))
    else AllocateAll(db, rw, db.rewards[rw].cost, users, allocationKey, ids, at, fs)
  }

  predicate Apart(a: Ids, b: Ids) {
    {a.credit, a.debit, a.refund, a.undo} !! {b.credit, b.debit, b.refund, b.undo} && a.rid != b.rid
  }

  /** The users are distinct and the key and every generated identifier are new. */
  ghost predicate AllAllocatable(db: Db, rw: string, cost: int, users: seq<string>, allocationKey: string, ids: string -> Ids) {
    && (forall i :: 0 <= i < |users| ==>
          Allocatable(db, users[i], rw, cost, PerUserKey(allocationKey, users[i]), ids(users[i])))
    && (forall i, j :: 0 <= i < j < |users| ==> users[i] != users[j] && Apart(ids(users[i]), ids(users[j])))
  }

  lemma KeysDiffer(allocationKey: string, u: string, v: string)
    requires u != v
    ensures PerUserKey(allocationKey, u) != PerUserKey(allocationKey, v)
  {
    assert PerUserKey(allocationKey, u)[|allocationKey + ":"|..] == u;
    assert PerUserKey(allocationKey, v)[|allocationKey + ":"|..] == v;
  }

  lemma OtherRowsHoldNoKey(l: seq<Entry>, more: seq<Entry>, source: string, key: string)
    requires FindKey(l, source, Some(key)).None?
    requires forall e :: e in more ==> !HoldsKey(e, source, Some(key))
    ensures FindKey(l + more, source, Some(key)).None?
  {
    hide HoldsKey;
    var all := l + more;
    forall i | 0 <= i < |all| ensures !HoldsKey(all[i], source, Some(key)) {
      if i >= |l| {
        assert all[i] in more;
      } else {
        assert all[i] == l[i];
      }
    }
  }

  lemma OtherRowsHaveOtherIds(db: Db, d: Db, u: string, key: string, ids: Ids, id: string)
    requires OnlyOwn(db, d, u, key, ids) && !HasId(db.ledger, id)
    requires id !in {ids.credit, ids.debit, ids.refund, ids.undo}
    ensures !HasId(d.ledger, id)
  {
    forall i | 0 <= i < |d.ledger| ensures d.ledger[i].id != id {
      if i < |db.ledger| {
        assert d.ledger[i] == db.ledger[i] && db.ledger[i] in db.ledger;
      } else {
        assert OwnRow(d.ledger[i], u, key, ids);
      }
    }
  }

  lemma OtherIdsStayFresh(db: Db, d: Db, u: string, key: string, ids: Ids, theirs: Ids)
    requires OnlyOwn(db, d, u, key, ids) && FreshIds(db, theirs) && Apart(ids, theirs)
    ensures FreshIds(d, theirs)
  {
    hide OnlyOwn, HasId;
    OtherRowsHaveOtherIds(db, d, u, key, ids, theirs.credit);
    OtherRowsHaveOtherIds(db, d, u, key, ids, theirs.debit);
    OtherRowsHaveOtherIds(db, d, u, key, ids, theirs.refund);
    OtherRowsHaveOtherIds(db, d, u, key, ids, theirs.undo);
    OtherRedemptions(db, d, u, key, ids);
  }

  lemma OtherRedemptions(db: Db, d: Db, u: string, key: string, ids: Ids)
    requires OnlyOwn(db, d, u, key, ids)
    ensures forall rid :: rid in d.redemptions && rid !in db.redemptions ==> rid == ids.rid
  {
  }

  lemma OtherKeysStayFresh(db: Db, d: Db, u: string, key: string, ids: Ids, v: string, other: string)
    requires OnlyOwn(db, d, u, key, ids) && FreshKey(db, v, other) && key != other
    ensures FreshKey(d, v, other)
  {
    var more := d.ledger[|db.ledger|..];
    assert d.ledger == db.ledger + more;
    forall e | e in more ensures !HoldsKey(e, ADMIN_SOURCE, Some(other)) {
      var i :| 0 <= i < |more| && more[i] == e;
      assert OwnRow(d.ledger[|db.ledger| + i], u, key, ids);
    }
    OtherRowsHoldNoKey(db.ledger, more, ADMIN_SOURCE, other);
  }

  /** Another user's allocation leaves this one's key and identifiers unused. */
  lemma StaysAllocatable(db: Db, d: Db, u: string, key: string, ids: Ids,
                         v: string, other: string, theirs: Ids, rw: string, cost: int, f: Fulfilment, granted: bool)
    requires Allocatable(db, v, rw, cost, other, theirs)
    requires Ended(db, d, u, rw, cost, key, ids, granted, f)
    requires key != other && Apart(ids, theirs)
    ensures Allocatable(d, v, rw, cost, other, theirs)
  {
    hide Valid, Moved, OnlyOwn, FreshIds, FreshKey;
    OtherIdsStayFresh(db, d, u, key, ids, theirs);
    OtherKeysStayFresh(db, d, u, key, ids, v, other);
  }

  function Count(outcomes: seq<Given>): nat {
    if outcomes == [] then 0 else (if outcomes[0] == ALLOCATED then 1 else 0) + Count(outcomes[1..])
  }

  function AllIssued(refs: string -> string): string -> Fulfilment {
    (u: string) => Issued(refs(u))
  }

  /** Giving a reward to a list of users under a new key, with a third party that delivers: nobody's balance
      changes, and as many units leave the shelf as users were given one. A refusal does not stop the rest. */
  lemma {:induction false} AllocationConservesBalances(db: Db, rw: string, cost: int, users: seq<string>, allocationKey: string,
                                                       ids: string -> Ids, at: int, refs: string -> string)
    requires Valid(db) && rw in db.rewards
    requires AllAllocatable(db, rw, cost, users, allocationKey, ids)
    ensures var (d, r) := AllocateAll(db, rw, cost, users, allocationKey, ids, at, AllIssued(refs));
      && Valid(d) && r.Ok? && |r.value| == |users|
      && (forall v :: Balance(d, v) == Balance(db, v))
      && rw in d.rewards
      && d.rewards[rw].stock == (if db.rewards[rw].stock.Some? then Some(db.rewards[rw].stock.value - Count(r.value)) else None)
    decreases |users|
  {
    hide Valid, AllocateOne, AllAllocatable, Granted;
    if users != [] {
      var u, rest := users[0], users[1..];
      FirstGiven(db, rw, cost, users, allocationKey, ids, at, refs);
      var d := AllocateOne(db, u, rw, cost, PerUserKey(allocationKey, u), ids(u), at, Issued(refs(u))).0;
      AllocationConservesBalances(d, rw, cost, rest, allocationKey, ids, at, refs);
    }
  }

  /** The first user's turn. */
  lemma FirstGiven(db: Db, rw: string, cost: int, users: seq<string>, allocationKey: string, ids: string -> Ids, at: int, refs: string -> string)
    requires users != [] && rw in db.rewards && AllAllocatable(db, rw, cost, users, allocationKey, ids)
    ensures var u := users[0];
      var (d, r) := AllocateOne(db, u, rw, cost, PerUserKey(allocationKey, u), ids(u), at, Issued(refs(u)));
      && Valid(d) && r == Ok(if Granted(db, u, rw) then ALLOCATED else NOT_ALLOCATED)
      && (forall v :: Balance(d, v) == Balance(db, v))
      && rw in d.rewards
      && d.rewards[rw].stock == (if Granted(db, u, rw) && db.rewards[rw].stock.Some? then Some(db.rewards[rw].stock.value - 1) else db.rewards[rw].stock)
      && AllAllocatable(d, rw, cost, users[1..], allocationKey, ids)
  {
    hide Valid, AllocateOne, Allocatable, Granted, OnlyOwn, Ended;
    var u := users[0];
    var key := PerUserKey(allocationKey, u);
    assert Allocatable(db, u, rw, cost, key, ids(u));
    AllocationNets(db, u, rw, cost, key, ids(u), at, Issued(refs(u)));
    var d := AllocateOne(db, u, rw, cost, key, ids(u), at, Issued(refs(u))).0;
    EndedIssued(db, d, u, rw, cost, key, ids(u), Wins(db, u, rw, Issued(refs(u))), refs(u));
    RestAllocatable(db, d, users, rw, cost, allocationKey, ids, Issued(refs(u)), Wins(db, u, rw, Issued(refs(u))));
  }

  lemma EndedIssued(db: Db, d: Db, u: string, rw: string, cost: int, key: string, ids: Ids, granted: bool, ref: string)
    requires rw in db.rewards && Ended(db, d, u, rw, cost, key, ids, granted, Issued(ref))
    ensures Valid(d) && (forall v :: Balance(d, v) == Balance(db, v)) && rw in d.rewards
    ensures d.rewards[rw].stock == (if granted && db.rewards[rw].stock.Some? then Some(db.rewards[rw].stock.value - 1) else db.rewards[rw].stock)
  {
    hide Valid;
  }

  lemma RestAllocatable(db: Db, d: Db, users: seq<string>, rw: string, cost: int, allocationKey: string, ids: string -> Ids,
                        f: Fulfilment, granted: bool)
    requires users != [] && AllAllocatable(db, rw, cost, users, allocationKey, ids) && rw in db.rewards
    requires Ended(db, d, users[0], rw, cost, PerUserKey(allocationKey, users[0]), ids(users[0]), granted, f)
    ensures AllAllocatable(d, rw, cost, users[1..], allocationKey, ids)
  {
    hide Allocatable, Ended, PerUserKey, Apart;
    var rest := users[1..];
    forall i | 0 <= i < |rest|
      ensures Allocatable(d, rest[i], rw, cost, PerUserKey(allocationKey, rest[i]), ids(rest[i]))
    {
      var v := users[i + 1];
      assert users[0] != v && Apart(ids(users[0]), ids(v));
      KeysDiffer(allocationKey, users[0], v);
      StaysAllocatable(db, d, users[0], PerUserKey(allocationKey, users[0]), ids(users[0]),
                       v, PerUserKey(allocationKey, v), ids(v), rw, cost, f, granted);
    }
    forall i, j | 0 <= i < j < |rest| ensures rest[i] != rest[j] && Apart(ids(rest[i]), ids(rest[j])) {
      assert users[i + 1] != users[j + 1] && Apart(ids(users[i + 1]), ids(users[j + 1]));
    }
  }

  // ----- Everything keeps the invariant -----

  lemma ReserveKeepsValid(db: Db, input: RedeemInput, rid: string, eid: string, at: int)
    requires Valid(db) && Reserve(db, input, rid, eid, at).1.Ok?
    ensures Valid(Reserve(db, input, rid, eid, at).0) && Evolves(db, Reserve(db, input, rid, eid, at).0)
  {
    hide Valid, Evolves, ReserveWith, FindByKey;
    EvolvesReflexive(db);
    if FindByKey(db, input.userId, input.key).None? {
      var seen := db.rewards[input.rewardId];
      var row := ClaimRow(input, seen);
      ClaimedNotReplayed(db, rid, row, seen.stock.Some?, eid, at);
      CostIsPositive(db, input.rewardId);
      ReserveStepKeepsValid(db, rid, row, seen.stock.Some?, eid, at);
    }
  }

  /** The reservation knows the debit it would have to undo. */
  predicate Undoable(db: Db, v: Reservation) {
    && v.redemptionId in db.redemptions && v.rewardId == db.redemptions[v.redemptionId].rewardId
    && exists o :: o in db.ledger && o.id == v.entryId && DebitFor(o, v.redemptionId, db.redemptions[v.redemptionId])
  }

  lemma CompensateKeepsValid(db: Db, v: Reservation, reason: string, eid: string, at: int)
    requires Valid(db) && Undoable(db, v) && Compensate(db, v, reason, eid, at).1.Ok?
    ensures Valid(Compensate(db, v, reason, eid, at).0) && Evolves(db, Compensate(db, v, reason, eid, at).0)
  {
    hide Valid, Evolves, Reverse, ReturnUnit;
    EvolvesReflexive(db);
    if db.redemptions[v.redemptionId].status == RESERVED {
      var o :| o in db.ledger && o.id == v.entryId && DebitFor(o, v.redemptionId, db.redemptions[v.redemptionId]);
      CompensateStepKeepsValid(db, v, reason, o, eid, at);
    }
  }

  /** A claim just committed is RESERVED and undoable. */
  lemma ClaimIsUndoable(db: Db, input: RedeemInput, rid: string, eid: string, at: int)
    requires Reserve(db, input, rid, eid, at).1.Ok? && Reserve(db, input, rid, eid, at).1.value.Claimed?
    ensures var (d, r) := Reserve(db, input, rid, eid, at);
      && Undoable(d, r.value.reservation) && rid in d.redemptions && d.redemptions[rid].status == RESERVED
  {
    hide ReserveWith, FindByKey, HasId;
    var seen := db.rewards[input.rewardId];
    var row := ClaimRow(input, seen);
    ReserveShape(db, rid, row, seen.stock.Some?, eid, at);
    var d := Reserve(db, input, rid, eid, at).0;
    assert d.ledger[|db.ledger|] == NewRow(DebitInput(rid, row), eid, at);
  }

  /** A redemption, however it ends, keeps the whole invariant. */
  lemma RedeemKeepsValid(db: Db, input: RedeemInput, ids: Ids, at: int, f: Fulfilment)
    requires Valid(db)
    ensures Valid(Redeem(db, input, ids, at, f).0) && Evolves(db, Redeem(db, input, ids, at, f).0)
  {
    hide Valid, Evolves, Reserve, Compensate, Undoable;
    EvolvesReflexive(db);
    var (d, r) := Reserve(db, input, ids.rid, ids.debit, at);
    if r.Ok? && !(f.Unclaimable? && ReachesClaim(db, input, ids.rid)) {
      ReserveKeepsValid(db, input, ids.rid, ids.debit, at);
      if r.value.Claimed? {
        ClaimIsUndoable(db, input, ids.rid, ids.debit, at);
        match f
        case Issued(ref) =>
          FulfilStepKeepsValid(d, ids.rid, ref);
          EvolvesTransitive(db, d, Fulfil(d, ids.rid, ref));
        case Refused(reason) =>
          if Compensate(d, r.value.reservation, reason, ids.refund, at).1.Ok? {
            CompensateKeepsValid(d, r.value.reservation, reason, ids.refund, at);
            EvolvesTransitive(db, d, Compensate(d, r.value.reservation, reason, ids.refund, at).0);
          }
        case _ =>
      }
    }
  }

  /** A row under an allocation key is an adjustment with nothing to do with a redemption. */
  lemma AdminRow(db: Db, c: Entry, key: string)
    requires Valid(db) && c in db.ledger && HoldsKey(c, ADMIN_SOURCE, Some(key))
    ensures c.kind == ADJUSTMENT && c.redemptionId.None? && c.reversesId.None?
  {
    hide DeliveryInv, RulesInv, AllAccounted, ClaimsUnique, RowsSound, BalancesMatch, FloorHolds, DistinctIds, DistinctKeys, UndoesEarlier;
    var i :| 0 <= i < |db.ledger| && db.ledger[i] == c;
    assert WellLabelled(db.ledger[i]);
    assert ADMIN_SOURCE[0] == 'a' && PARTNER_PREFIX[0] == 'p' && REVERSAL_SOURCE[0] == 'r' && REDEMPTION_SOURCE[0] == 'r';
  }

  lemma CreditKeepsValid(db: Db, u: string, cost: int, key: string, id: string, at: int)
    requires Valid(db) && Append(db, CompInput(u, cost, key), id, at).1.Ok?
    ensures var (d, r) := Append(db, CompInput(u, cost, key), id, at);
      && Valid(d) && Evolves(db, d)
      && exists c :: c in d.ledger && c.id == r.value.transactionId && HoldsKey(c, ADMIN_SOURCE, Some(key))
  {
    hide Valid, Evolves, Append;
    assert ADMIN_SOURCE[0] == 'a' && PARTNER_PREFIX[0] == 'p' && REVERSAL_SOURCE[0] == 'r';
    AppendStepKeepsValid(db, CompInput(u, cost, key), id, at);
    AppendReportsTheTruth(db, CompInput(u, cost, key), id, at);
    var (d, r) := Append(db, CompInput(u, cost, key), id, at);
    var i :| 0 <= i < |d.ledger| && HoldsKey(d.ledger[i], ADMIN_SOURCE, Some(key)) && d.ledger[i].id == r.value.transactionId;
    assert d.ledger[i] in d.ledger;
  }

  lemma RowsStay(db: Db, d: Db, c: Entry)
    requires Evolves(db, d) && c in db.ledger
    ensures c in d.ledger
  {
    hide LaterRedemption, SameDelivery, StockConserved;
    var i :| 0 <= i < |db.ledger| && db.ledger[i] == c;
    assert d.ledger[i] == c;
  }

  lemma UndoKeepsValid(d: Db, c: Entry, key: string, undo: string, at: int)
    requires Valid(d) && c in d.ledger && HoldsKey(c, ADMIN_SOURCE, Some(key)) && Reverse(d, c.id, undo, at).1.Ok?
    ensures Valid(Reverse(d, c.id, undo, at).0) && Evolves(d, Reverse(d, c.id, undo, at).0)
  {
    hide Valid, Evolves, Append, LedgerState, LedgerInv, HoldsKey;
    AdminRow(d, c, key);
    StateIsSound(d);
    RowById(d.ledger, c);
    var i :| 0 <= i < |d.ledger| && d.ledger[i] == c;
    assert Clawback(d.ledger, ReversalOf(c));
    AppendStepKeepsValid(d, ReversalOf(c), undo, at);
  }

  /** And so does one user's turn of an allocation, whatever its key went through before. */
  lemma AllocateOneKeepsValid(db: Db, u: string, rw: string, cost: int, key: string, ids: Ids, at: int, f: Fulfilment)
    requires Valid(db)
    ensures Valid(AllocateOne(db, u, rw, cost, key, ids, at, f).0)
    ensures Evolves(db, AllocateOne(db, u, rw, cost, key, ids, at, f).0)
  {
    hide Valid, Evolves, Append, Redeem, Reverse, HoldsKey;
    EvolvesReflexive(db);
    var (credited, credit) := Append(db, CompInput(u, cost, key), ids.credit, at);
    if credit.Ok? {
      CreditKeepsValid(db, u, cost, key, ids.credit, at);
      RedeemKeepsValid(credited, RedeemInput(u, rw, key), ids, at, f);
      var (d, r) := Redeem(credited, RedeemInput(u, rw, key), ids, at, f);
      EvolvesTransitive(db, credited, d);
      if r.Err? && Reverse(d, credit.value.transactionId, ids.undo, at).1.Ok? {
        var c :| c in credited.ledger && c.id == credit.value.transactionId && HoldsKey(c, ADMIN_SOURCE, Some(key));
        RowsStay(credited, d, c);
        UndoKeepsValid(d, c, key, ids.undo, at);
        EvolvesTransitive(db, d, Reverse(d, c.id, ids.undo, at).0);
      }
    }
  }

  // ----- Refused, then retried -----

  /** The same tables with the reward on sale and in stock. */
  function Reopened(db: Db, rw: string, reward: Reward): Db {
    db.(rewards := db.rewards[rw := reward])
  }

  /** What a refused run leaves for the next: its credit, taken back. */
  lemma RefusalLeaves(db: Db, u: string, rw: string, cost: int, key: string, ids: Ids, at: int, f: Fulfilment)
    requires Allocatable(db, u, rw, cost, key, ids) && !Granted(db, u, rw)
    ensures var d := AllocateOne(db, u, rw, cost, key, ids, at, f).0;
      var c := CreditRow(u, cost, key, ids, at);
      && Valid(d) && c in d.ledger && HoldsKey(c, ADMIN_SOURCE, Some(key)) && HasReversal(d.ledger, c.id)
      && d.redemptions == db.redemptions && d.users == db.users && d.rewards == db.rewards
      && Balance(d, u) == Balance(db, u)
  {
    hide Valid, AllocateOne, Append, FindByKey, FreshIds, FreshKey, Granted, Evolves;
    RefusedAllocation(db, u, rw, cost, key, ids, at, f);
    StillFresh(db, u, rw, cost, key, ids, at);
    AllocatableIsValid(db, u, rw, cost, key, ids);
    AllocateOneKeepsValid(db, u, rw, cost, key, ids, at, f);
    var c := CreditRow(u, cost, key, ids, at);
    var before, back := Credited(db, u, cost, key, ids, at), NewRow(ReversalOf(c), ids.undo, at);
    ReversalPush(before.ledger, back, c.id);
    RowsOnly(before.ledger, back, c);
  }

  lemma AllocatableIsValid(db: Db, u: string, rw: string, cost: int, key: string, ids: Ids)
    requires Allocatable(db, u, rw, cost, key, ids)
    ensures Valid(db)
  {
  }

  lemma RowsOnly(l: seq<Entry>, e: Entry, c: Entry)
    requires c in l
    ensures c in l + [e]
  {
  }

  /** A key refused because the reward was off sale or out of stock, run again once it is available to a user who
      has the points: the administrator's gift is paid for by the user. */
  lemma RefusedThenRetriedIsPaidByTheUser(db: Db, u: string, rw: string, cost: int, key: string, ids: Ids, at: int, f: Fulfilment,
                                          reward: Reward, again: Ids, later: int, ref: string)
    requires Allocatable(db, u, rw, cost, key, ids) && !Granted(db, u, rw) && Balance(db, u) >= cost
    requires reward.cost == cost && reward.active && (reward.stock.Some? ==> reward.stock.value > 0)
    requires var reopened := Reopened(AllocateOne(db, u, rw, cost, key, ids, at, f).0, rw, reward);
      Valid(reopened) && FreshIds(reopened, again)
    ensures var reopened := Reopened(AllocateOne(db, u, rw, cost, key, ids, at, f).0, rw, reward);
      var (d, r) := AllocateOne(reopened, u, rw, cost, key, again, later, Issued(ref));
      && r == Ok(ALLOCATED) && Balance(d, u) == Balance(db, u) - cost
      && Sum(d.ledger, CausedBy(CreditRow(u, cost, key, ids, at), again.rid)) == -cost
  {
    hide Valid, AllocateOne, FindByKey, FreshIds, Evolves, HoldsKey, HasReversal, FindKey;
    RefusalLeaves(db, u, rw, cost, key, ids, at, f);
    var refused := AllocateOne(db, u, rw, cost, key, ids, at, f).0;
    var reopened := Reopened(refused, rw, reward);
    var c := CreditRow(u, cost, key, ids, at);
    AllocatableIsValid(db, u, rw, cost, key, ids);
    OneClaim(db, reopened, u, key);
    RerunNets(reopened, u, rw, cost, key, again, c, later, Issued(ref));
    GrantedRerun(reopened, u, rw, cost, key, again, c, later, ref);
    AllocateOneKeepsValid(reopened, u, rw, cost, key, again, later, Issued(ref));
    var debit := NewRow(DebitInput(again.rid, ClaimRow(RedeemInput(u, rw, key), reward)), again.debit, later);
    UserRowsMove(reopened, AllocateOne(reopened, u, rw, cost, key, again, later, Issued(ref)).0, u, [debit]);
    SumPush([], debit, ByUser(u));
    assert [] + [debit] == [debit];
  }
}
