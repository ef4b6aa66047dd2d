/** Redemption: reserve points and stock in one transaction, fulfil outside it, compensate on failure. */
module Redeeming {
  import opened Schema
  import opened Ledger

  datatype RedeemInput = RedeemInput(userId: string, rewardId: string, key: string)

  datatype Reservation = Reservation(redemptionId: string, entryId: string, rewardId: string)

  datatype Reserved =
    | Replayed(redemptionId: string, row: Redemption, balance: int)
    | Claimed(reservation: Reservation, row: Redemption, balanceAfter: int)

  predicate HoldsClaim(r: Redemption, userId: string, key: string) {
    r.userId == userId && r.key == key
  }

  ghost function FindByKey(db: Db, userId: string, key: string): (r: Option<string>)
    ensures r.Some? ==> r.value in db.redemptions && HoldsClaim(db.redemptions[r.value], userId, key)
    ensures r.None? ==> forall rid :: rid in db.redemptions ==> !HoldsClaim(db.redemptions[rid], userId, key)
  {
    if rid :| rid in db.redemptions && HoldsClaim(db.redemptions[rid], userId, key) then Some(rid) else None
  }

  /** The row a claim inserts; the reward's price and name are snapshotted. */
  function ClaimRow(input: RedeemInput, seen: Reward): Redemption {
    Redemption(input.userId, input.rewardId, RESERVED, seen.cost, seen.name, input.key, None, None)
  }

  function DebitInput(rid: string, row: Redemption): AppendInput {
    AppendInput(row.userId, -row.cost, REDEEM, REDEMPTION_SOURCE, None, Some(rid), None, None, true)
  }

  /** UPDATE rewards SET stock = stock - 1 WHERE stock > 0: None when no row matched. */
  function TakeUnit(db: Db, rw: string): Option<Db> {
    if rw in db.rewards && db.rewards[rw].stock.Some? && db.rewards[rw].stock.value > 0 then
      Some(db.(rewards := db.rewards[rw := db.rewards[rw].(stock := Some(db.rewards[rw].stock.value - 1))]))
    else None
  }

  /** UPDATE rewards SET stock = stock + 1 WHERE stock IS NOT NULL. */
  function ReturnUnit(db: Db, rw: string): Db {
    if rw in db.rewards && db.rewards[rw].stock.Some? then
      db.(rewards := db.rewards[rw := db.rewards[rw].(stock := Some(db.rewards[rw].stock.value + 1))])
    else db
  }

  /** Phase 1 once the reward has been read: claim, lock, take a unit if limited, debit. */
  ghost function ReserveWith(db: Db, rid: string, row: Redemption, limited: bool, eid: string, at: int)
    : (r: (Db, Result<Reserved>))
    ensures r.1.Ok? && r.1.value.Claimed? ==> r.1.value.reservation.redemptionId == rid && rid in r.0.redemptions
  {
    var taken := FindByKey(db, row.userId, row.key);
    if taken.Some? then
      (db, Ok(Replayed(taken.value, db.redemptions[taken.value], Balance(db, row.userId))))
    else if rid in db.redemptions then (db, Err(UniqueViolation))
    else if !UserExists(db, row.userId) then (db, Err(ForeignKeyViolation))
    else
      var locked := Materialise(db.(redemptions := db.redemptions[rid := row]), row.userId);
      var unit := if limited then TakeUnit(locked, row.rewardId) else Some(locked);
      if unit.None? then (locked, Err(OutOfStock))
      else
        var (d, r) := Append(unit.value, DebitInput(rid, row), eid, at);
        (d, if r.Ok? then Ok(Claimed(Reservation(rid, r.value.transactionId, row.rewardId), row, r.value.balanceAfter))
            else Err(r.error))
  }

  /** Phase 1. A replay wins over everything, including a reward that has since gone. */
  ghost function Reserve(db: Db, input: RedeemInput, rid: string, eid: string, at: int): (r: (Db, Result<Reserved>))
    ensures r.1.Ok? && r.1.value.Claimed? ==> r.1.value.reservation.redemptionId == rid && rid in r.0.redemptions
  {
    var prior := FindByKey(db, input.userId, input.key);
    if prior.Some? then
      (db, Ok(Replayed(prior.value, db.redemptions[prior.value], Balance(db, input.userId))))
    else if input.rewardId !in db.rewards then (db, Err(RewardNotFound(input.rewardId)))
    else if !db.rewards[input.rewardId].active then (db, Err(RewardInactive))
    else
      var seen := db.rewards[input.rewardId];
      ReserveWith(db, rid, ClaimRow(input, seen), seen.stock.Some?, eid, at)
  }

  /** The unconditional write that follows a successful fulfilment. */
  function Fulfil(db: Db, rid: string, ref: string): Db
    requires rid in db.redemptions
  {
    db.(redemptions := db.redemptions[rid := db.redemptions[rid].(status := FULFILLED, fulfillmentRef := Some(ref))])
  }

  function MarkFailed(db: Db, rid: string, reason: string): Db
    requires rid in db.redemptions
  {
    db.(redemptions := db.redemptions[rid := db.redemptions[rid].(status := FAILED, failureReason := Some(reason))])
  }

  /** Undo a reservation. Only the caller that moves the row out of RESERVED does any work. */
  function Compensate(db: Db, v: Reservation, reason: string, eid: string, at: int): (Db, Result<bool>) {
    if v.redemptionId !in db.redemptions || db.redemptions[v.redemptionId].status != RESERVED then (db, Ok(false))
    else
      var (d, r) := Reverse(MarkFailed(db, v.redemptionId, reason), v.entryId, eid, at);
      if r.Err? then (d, Err(r.error)) else (ReturnUnit(d, v.rewardId), Ok(true))
  }

  // ----- What every run keeps -----

  predicate DebitFor(e: Entry, rid: string, r: Redemption) {
    e.kind == REDEEM && e.redemptionId == Some(rid) && e.userId == r.userId && e.delta == -r.cost
  }

  /** Exactly what a redemption did to the ledger: its debit row, reversed if and only if it FAILED. */
  ghost predicate Accounted(l: seq<Entry>, rid: string, r: Redemption) {
    && (exists i :: 0 <= i < |l| && DebitFor(l[i], rid, r) && (r.status == FAILED <==> HasReversal(l, l[i].id)))
    && Sum(l, ByRedemption(rid)) == (if r.status == FAILED then 0 else -r.cost)
  }

  /** Only a debit and its reversal are tagged with a redemption, and a redemption has one debit. */
  ghost predicate TagsSound(db: Db) {
    && (forall i :: 0 <= i < |db.ledger| && db.ledger[i].redemptionId.Some? ==>
          db.ledger[i].redemptionId.value in db.redemptions && db.ledger[i].kind in {REDEEM, REVERSAL})
    && (forall i :: 0 <= i < |db.ledger| && db.ledger[i].kind == REDEEM ==> db.ledger[i].redemptionId.Some?)
    && (forall i, j :: 0 <= i < j < |db.ledger| && db.ledger[i].kind == REDEEM && db.ledger[j].kind == REDEEM
          ==> db.ledger[i].redemptionId != db.ledger[j].redemptionId)
  }

  ghost predicate ClaimsUnique(db: Db) {
    forall a, b | a in db.redemptions && b in db.redemptions ::
      HoldsClaim(db.redemptions[a], db.redemptions[b].userId, db.redemptions[b].key) ==> a == b
  }

  ghost predicate AllAccounted(db: Db) {
    forall rid :: rid in db.redemptions ==> Accounted(db.ledger, rid, db.redemptions[rid])
  }

  ghost predicate RowsSound(db: Db) {
    && (forall rid :: rid in db.redemptions ==>
          db.redemptions[rid].cost > 0 && db.redemptions[rid].rewardId in db.rewards)
    && (forall rw :: rw in db.rewards ==>
          db.rewards[rw].cost > 0 && (db.rewards[rw].stock.Some? ==> db.rewards[rw].stock.value >= 0))
  }

  ghost predicate RedemptionInv(db: Db) {
    TagsSound(db) && ClaimsUnique(db) && AllAccounted(db) && RowsSound(db)
  }

  // ----- Stock -----

  function Holding(redemptions: map<string, Redemption>, rw: string): set<string> {
    set rid | rid in redemptions && redemptions[rid].rewardId == rw && redemptions[rid].status != FAILED
  }

  /** Units of a limited reward, on the shelf or held by a reservation that has not failed. */
  function Units(db: Db, rw: string): int
    requires rw in db.rewards && db.rewards[rw].stock.Some?
  {
    db.rewards[rw].stock.value + |Holding(db.redemptions, rw)|
  }

  /** Rewards never change between limited and unlimited, and units are conserved. */
  ghost predicate StockConserved(db: Db, db': Db) {
    forall rw :: rw in db.rewards ==>
      && rw in db'.rewards
      && (db.rewards[rw].stock.Some? <==> db'.rewards[rw].stock.Some?)
      && (db.rewards[rw].stock.Some? ==> Units(db', rw) == Units(db, rw))
  }

  lemma HoldingAfterClaim(rs: map<string, Redemption>, rid: string, row: Redemption, rw: string)
    requires rid !in rs && row.status == RESERVED
    ensures |Holding(rs[rid := row], rw)| == |Holding(rs, rw)| + (if row.rewardId == rw then 1 else 0)
  {
    assert Holding(rs[rid := row], rw) == Holding(rs, rw) + (if row.rewardId == rw then {rid} else {});
  }

  lemma HoldingAfterFailure(rs: map<string, Redemption>, rid: string, row: Redemption, rw: string)
    requires rid in rs && rs[rid].status == RESERVED && row.status == FAILED && row.rewardId == rs[rid].rewardId
    ensures |Holding(rs[rid := row], rw)| == |Holding(rs, rw)| - (if row.rewardId == rw then 1 else 0)
  {
    assert Holding(rs[rid := row], rw) == Holding(rs, rw) - (if row.rewardId == rw then {rid} else {});
  }

  lemma HoldingAfterFulfilment(rs: map<string, Redemption>, rid: string, row: Redemption, rw: string)
    requires rid in rs && rs[rid].status != FAILED && row.status == FULFILLED && row.rewardId == rs[rid].rewardId
    ensures Holding(rs[rid := row], rw) == Holding(rs, rw)
  {
  }

  // ----- Preservation -----

  lemma ReversalPush(l: seq<Entry>, e: Entry, id: string)
    ensures HasReversal(l + [e], id) <==> HasReversal(l, id) || e.reversesId == Some(id)
  {
    assert forall x :: x in l ==> x in l + [e];
    if e.reversesId == Some(id) {
      assert (l + [e])[|l|] == e;
    }
  }

  /** A row that has nothing to do with a redemption leaves its account as it was. */
  lemma AccountedPush(l: seq<Entry>, e: Entry, rid: string, r: Redemption)
    requires Accounted(l, rid, r)
    requires e.redemptionId != Some(rid)
    requires forall i :: 0 <= i < |l| && l[i].kind == REDEEM && l[i].redemptionId == Some(rid) ==> e.reversesId != Some(l[i].id)
    ensures Accounted(l + [e], rid, r)
  {
    var i :| 0 <= i < |l| && DebitFor(l[i], rid, r) && (r.status == FAILED <==> HasReversal(l, l[i].id));
    SumPush(l, e, ByRedemption(rid));
    ReversalPush(l, e, l[i].id);
    assert DebitFor((l + [e])[i], rid, r);
  }

  lemma UntaggedPostKeeps(db: Db, e: Entry)
    requires RedemptionInv(db)
    requires e.redemptionId.None? && e.kind != REDEEM
    requires forall i :: 0 <= i < |db.ledger| && db.ledger[i].kind == REDEEM ==> e.reversesId != Some(db.ledger[i].id)
    ensures RedemptionInv(Post(db, e))
  {
    hide Accounted;
    var d := Post(db, e);
    forall rid | rid in d.redemptions ensures Accounted(d.ledger, rid, d.redemptions[rid]) {
      assert Accounted(db.ledger, rid, db.redemptions[rid]);
      AccountedPush(db.ledger, e, rid, db.redemptions[rid]);
    }
  }

  lemma {:induction false} UntaggedSumsToZero(l: seq<Entry>, rid: string)
    requires forall i :: 0 <= i < |l| ==> l[i].redemptionId != Some(rid)
    ensures Sum(l, ByRedemption(rid)) == 0
  {
    if l != [] {
      UntaggedSumsToZero(l[..|l| - 1], rid);
    }
  }

  lemma ReversalTargetsExist(l: seq<Entry>, id: string)
    requires LedgerInv(l) && HasReversal(l, id)
    ensures HasId(l, id)
  {
    hide WellLabelled;
    var e :| e in l && e.reversesId == Some(id);
    var k :| 0 <= k < |l| && l[k] == e;
    assert WellLabelled(l[k]) && UndoesEarlier(l, k);
    ReversalsAreLabelled(l[k]);
    var j :| 0 <= j < k && Mirrors(l[j], l[k]);
    assert l[j] in l;
  }

  lemma ReversalsAreLabelled(e: Entry)
    requires WellLabelled(e)
    ensures e.reversesId.Some? <==> e.kind == REVERSAL
  {
  }

  /** A new debit for a new redemption. */
  lemma DebitAccounts(l: seq<Entry>, e: Entry, rid: string, row: Redemption)
    requires LedgerInv(l) && !HasId(l, e.id)
    requires forall i :: 0 <= i < |l| ==> l[i].redemptionId != Some(rid)
    requires DebitFor(e, rid, row) && e.reversesId.None? && row.status != FAILED
    ensures Accounted(l + [e], rid, row)
  {
    SumPush(l, e, ByRedemption(rid));
    UntaggedSumsToZero(l, rid);
    assert !HasReversal(l, e.id) by {
      if HasReversal(l, e.id) { ReversalTargetsExist(l, e.id); }
    }
    ReversalPush(l, e, e.id);
    assert DebitFor((l + [e])[|l|], rid, row);
  }

  /** The state a successful reservation commits. */
  lemma ReserveShape(db: Db, rid: string, row: Redemption, limited: bool, eid: string, at: int)
    requires ReserveWith(db, rid, row, limited, eid, at).1.Ok?
    requires ReserveWith(db, rid, row, limited, eid, at).1.value.Claimed?
    ensures var (d, r) := ReserveWith(db, rid, row, limited, eid, at);
      var e := NewRow(DebitInput(rid, row), eid, at);
      && FindByKey(db, row.userId, row.key).None? && rid !in db.redemptions
      && UserExists(db, row.userId) && !HasId(db.ledger, eid)
      && (limited ==> row.rewardId in db.rewards && db.rewards[row.rewardId].stock.Some? && db.rewards[row.rewardId].stock.value > 0)
      && Balance(db, row.userId) >= row.cost
      && d.redemptions == db.redemptions[rid := row]
      && d.ledger == db.ledger + [e]
      && d.balances == db.balances[row.userId := Balance(db, row.userId) - row.cost]
      && d.users == db.users && d.rules == db.rules && d.deliveries == db.deliveries
      && d.rewards == (if limited then db.rewards[row.rewardId := db.rewards[row.rewardId].(stock := Some(db.rewards[row.rewardId].stock.value - 1))]
                       else db.rewards)
      && r == Ok(Claimed(Reservation(rid, eid, row.rewardId), row, Balance(db, row.userId) - row.cost))
  {
  }

  /** What a new claim, its unit and its debit make of the tables; the facts a reservation establishes. */
  ghost predicate ClaimPosted(db: Db, d: Db, rid: string, row: Redemption, e: Entry) {
    && rid !in db.redemptions && FindByKey(db, row.userId, row.key).None? && !HasId(db.ledger, e.id)
    && DebitFor(e, rid, row) && e.reversesId.None?
    && row.status == RESERVED && row.cost > 0 && row.rewardId in db.rewards
    && d.redemptions == db.redemptions[rid := row]
    && d.ledger == db.ledger + [e]
    && d.rewards == (if db.rewards[row.rewardId].stock.Some? then
                       db.rewards[row.rewardId := db.rewards[row.rewardId].(stock := Some(db.rewards[row.rewardId].stock.value - 1))]
                     else db.rewards)
    && (db.rewards[row.rewardId].stock.Some? ==> db.rewards[row.rewardId].stock.value > 0)
  }

  lemma ClaimAccounts(db: Db, d: Db, rid: string, row: Redemption, e: Entry)
    requires AllAccounted(db) && TagsSound(db) && LedgerInv(db.ledger) && ClaimPosted(db, d, rid, row, e)
    ensures AllAccounted(d)
  {
    hide Accounted, LedgerInv;
    forall r | r in d.redemptions ensures Accounted(d.ledger, r, d.redemptions[r]) {
      if r == rid {
        DebitAccounts(db.ledger, e, rid, row);
      } else {
        assert Accounted(db.ledger, r, db.redemptions[r]);
        AccountedPush(db.ledger, e, r, db.redemptions[r]);
      }
    }
  }

  lemma ClaimTags(db: Db, d: Db, rid: string, row: Redemption, e: Entry)
    requires TagsSound(db) && ClaimPosted(db, d, rid, row, e)
    ensures TagsSound(d)
  {
  }

  lemma ClaimStaysUnique(db: Db, d: Db, rid: string, row: Redemption, e: Entry)
    requires ClaimsUnique(db) && RowsSound(db) && ClaimPosted(db, d, rid, row, e)
    ensures ClaimsUnique(d) && RowsSound(d)
  {
  }

  lemma ClaimKeepsStock(db: Db, d: Db, rid: string, row: Redemption, e: Entry)
    requires ClaimPosted(db, d, rid, row, e)
    ensures StockConserved(db, d)
  {
    forall rw | rw in db.rewards && db.rewards[rw].stock.Some? ensures Units(d, rw) == Units(db, rw) {
      HoldingAfterClaim(db.redemptions, rid, row, rw);
    }
  }

  lemma ReserveKeepsRedemptions(db: Db, rid: string, row: Redemption, limited: bool, eid: string, at: int)
    requires RedemptionInv(db) && LedgerInv(db.ledger)
    requires ReserveWith(db, rid, row, limited, eid, at).1.Ok?
    requires ReserveWith(db, rid, row, limited, eid, at).1.value.Claimed?
    requires row.status == RESERVED && row.cost > 0
    requires row.rewardId in db.rewards && (limited <==> db.rewards[row.rewardId].stock.Some?)
    ensures var d := ReserveWith(db, rid, row, limited, eid, at).0;
      RedemptionInv(d) && StockConserved(db, d)
  {
    hide LedgerInv, ReserveWith, TagsSound, AllAccounted, ClaimsUnique, RowsSound, StockConserved;
    ReserveShape(db, rid, row, limited, eid, at);
    var d := ReserveWith(db, rid, row, limited, eid, at).0;
    var e := NewRow(DebitInput(rid, row), eid, at);
    assert ClaimPosted(db, d, rid, row, e);
    hide ClaimPosted;
    ClaimAccounts(db, d, rid, row, e);
    ClaimTags(db, d, rid, row, e);
    ClaimStaysUnique(db, d, rid, row, e);
    ClaimKeepsStock(db, d, rid, row, e);
  }

  /** The state a compensation that did its work commits. */
  lemma CompensateShape(db: Db, v: Reservation, reason: string, eid: string, at: int, o: Entry)
    requires LedgerState(db) && RedemptionInv(db)
    requires v.redemptionId in db.redemptions && db.redemptions[v.redemptionId].status == RESERVED
    requires o in db.ledger && o.id == v.entryId && DebitFor(o, v.redemptionId, db.redemptions[v.redemptionId])
    requires !HasId(db.ledger, eid)
    ensures var (d, r) := Compensate(db, v, reason, eid, at);
      && r == Ok(true)
      && d == ReturnUnit(Post(MarkFailed(db, v.redemptionId, reason), NewRow(ReversalOf(o), eid, at)), v.rewardId)
  {
    UnreversedDebit(db, v.redemptionId, o);
    var j :| 0 <= j < |db.ledger| && db.ledger[j] == o;
    assert o.userId in db.balances;
    assert LedgerInv(db.ledger);
    hide LedgerInv, LedgerState, RedemptionInv, Post, ReversalOf, NewRow, Reverse;
    ReverseShape(MarkFailed(db, v.redemptionId, reason), o, eid, at);
  }

  /** A redemption that has not failed has an unreversed debit. */
  lemma UnreversedDebit(db: Db, rid: string, o: Entry)
    requires RedemptionInv(db) && rid in db.redemptions && db.redemptions[rid].status != FAILED
    requires o in db.ledger && DebitFor(o, rid, db.redemptions[rid])
    ensures !HasReversal(db.ledger, o.id)
  {
    assert Accounted(db.ledger, rid, db.redemptions[rid]);
    var i :| 0 <= i < |db.ledger| && DebitFor(db.ledger[i], rid, db.redemptions[rid])
      && (db.redemptions[rid].status == FAILED <==> HasReversal(db.ledger, db.ledger[i].id));
    var j :| 0 <= j < |db.ledger| && db.ledger[j] == o;
    assert i == j;
  }

  lemma ReversalAccounts(l: seq<Entry>, e: Entry, rid: string, r: Redemption, o: Entry, r': Redemption)
    requires Accounted(l, rid, r) && r.status != FAILED
    requires o in l && DebitFor(o, rid, r) && Mirrors(o, e)
    requires r'.status == FAILED && r'.userId == r.userId && r'.cost == r.cost
    ensures Accounted(l + [e], rid, r')
  {
    var i :| 0 <= i < |l| && l[i] == o;
    SumPush(l, e, ByRedemption(rid));
    ReversalPush(l, e, o.id);
    assert DebitFor((l + [e])[i], rid, r');
  }

  lemma CompensateKeepsRedemptions(db: Db, v: Reservation, reason: string, eid: string, at: int, o: Entry)
    requires LedgerState(db) && RedemptionInv(db)
    requires v.redemptionId in db.redemptions && db.redemptions[v.redemptionId].status == RESERVED
    requires v.rewardId == db.redemptions[v.redemptionId].rewardId
    requires o in db.ledger && o.id == v.entryId && DebitFor(o, v.redemptionId, db.redemptions[v.redemptionId])
    requires !HasId(db.ledger, eid)
    ensures var d := Compensate(db, v, reason, eid, at).0;
      RedemptionInv(d) && StockConserved(db, d)
  {
    CompensateShape(db, v, reason, eid, at, o);
    hide Compensate, LedgerState;
    CompensatedRedemptions(db, v, reason, NewRow(ReversalOf(o), eid, at), o);
    CompensatedStock(db, v, reason, NewRow(ReversalOf(o), eid, at));
  }

  lemma CompensatedStock(db: Db, v: Reservation, reason: string, e: Entry)
    requires v.redemptionId in db.redemptions && db.redemptions[v.redemptionId].status == RESERVED
    requires v.rewardId == db.redemptions[v.redemptionId].rewardId
    ensures StockConserved(db, ReturnUnit(Post(MarkFailed(db, v.redemptionId, reason), e), v.rewardId))
  {
    var d := ReturnUnit(Post(MarkFailed(db, v.redemptionId, reason), e), v.rewardId);
    forall rw | rw in db.rewards && db.rewards[rw].stock.Some? ensures Units(d, rw) == Units(db, rw) {
      HoldingAfterFailure(db.redemptions, v.redemptionId, d.redemptions[v.redemptionId], rw);
    }
  }

  lemma CompensatedRedemptions(db: Db, v: Reservation, reason: string, e: Entry, o: Entry)
    requires LedgerState(db) && RedemptionInv(db)
    requires v.redemptionId in db.redemptions && db.redemptions[v.redemptionId].status == RESERVED
    requires o in db.ledger && DebitFor(o, v.redemptionId, db.redemptions[v.redemptionId])
    requires Mirrors(o, e) && e.kind == REVERSAL
    ensures RedemptionInv(ReturnUnit(Post(MarkFailed(db, v.redemptionId, reason), e), v.rewardId))
  {
    hide TagsSound, ClaimsUnique, AllAccounted, RowsSound, LedgerState;
    var d := ReturnUnit(Post(MarkFailed(db, v.redemptionId, reason), e), v.rewardId);
    CompensatedAccounts(db, d, v.redemptionId, e, o);
    RelabelKeeps(db, d, v.redemptionId);
    RowsStaySound(db, d, v.redemptionId);
    assert e.redemptionId == Some(v.redemptionId);
    CompensatedTags(db, d, e);
  }

  lemma CompensatedTags(db: Db, d: Db, e: Entry)
    requires TagsSound(db) && d.ledger == db.ledger + [e] && d.redemptions.Keys == db.redemptions.Keys
    requires e.kind == REVERSAL && (e.redemptionId.Some? ==> e.redemptionId.value in db.redemptions)
    ensures TagsSound(d)
  {
  }

  lemma CompensatedAccounts(db: Db, d: Db, rid: string, e: Entry, o: Entry)
    requires LedgerState(db) && AllAccounted(db)
    requires rid in db.redemptions && db.redemptions[rid].status == RESERVED
    requires o in db.ledger && DebitFor(o, rid, db.redemptions[rid]) && Mirrors(o, e)
    requires rid in d.redemptions && d.redemptions == db.redemptions[rid := d.redemptions[rid]]
    requires d.redemptions[rid].status == FAILED && d.redemptions[rid].userId == db.redemptions[rid].userId
    requires d.redemptions[rid].cost == db.redemptions[rid].cost
    requires d.ledger == db.ledger + [e]
    ensures AllAccounted(d)
  {
    hide Accounted, LedgerState;
    forall r | r in d.redemptions ensures Accounted(d.ledger, r, d.redemptions[r]) {
      assert Accounted(db.ledger, r, db.redemptions[r]);
      if r == rid {
        ReversalAccounts(db.ledger, e, rid, db.redemptions[rid], o, d.redemptions[rid]);
      } else {
        OneDebitEach(db, o, rid, r);
        AccountedPush(db.ledger, e, r, db.redemptions[r]);
      }
    }
  }

  lemma OneDebitEach(db: Db, o: Entry, rid: string, other: string)
    requires LedgerState(db) && o in db.ledger && o.redemptionId == Some(rid) && rid != other
    ensures forall i :: 0 <= i < |db.ledger| && db.ledger[i].redemptionId == Some(other) ==> db.ledger[i].id != o.id
  {
    hide FloorHolds, BalancesMatch, BalancesOwned;
    var j :| 0 <= j < |db.ledger| && db.ledger[j] == o;
  }

  lemma FulfilKeepsRedemptions(db: Db, rid: string, ref: string)
    requires RedemptionInv(db)
    requires rid in db.redemptions && db.redemptions[rid].status == RESERVED
    ensures RedemptionInv(Fulfil(db, rid, ref)) && StockConserved(db, Fulfil(db, rid, ref))
  {
    hide TagsSound, ClaimsUnique, AllAccounted, RowsSound, StockConserved;
    FulfilledStock(db, rid, ref);
    FulfilledAccounts(db, rid, ref);
    RelabelKeeps(db, Fulfil(db, rid, ref), rid);
    RowsStaySound(db, Fulfil(db, rid, ref), rid);
  }

  predicate SameButStock(a: Reward, b: Reward) {
    a.(stock := None) == b.(stock := None) && (b.stock.Some? && a.stock.Some? ==> b.stock.value >= a.stock.value)
    && (b.stock.Some? <==> a.stock.Some?)
  }

  lemma RowsStaySound(db: Db, d: Db, rid: string)
    requires RowsSound(db) && rid in db.redemptions && rid in d.redemptions
    requires d.redemptions == db.redemptions[rid := d.redemptions[rid]]
    requires d.redemptions[rid].cost == db.redemptions[rid].cost
    requires d.redemptions[rid].rewardId == db.redemptions[rid].rewardId
    requires d.rewards.Keys == db.rewards.Keys
    requires forall rw :: rw in db.rewards ==> SameButStock(db.rewards[rw], d.rewards[rw])
    ensures RowsSound(d)
  {
  }

  /** Changing a redemption's status, and nothing that identifies it, keeps the constraints on its table. */
  lemma RelabelKeeps(db: Db, d: Db, rid: string)
    requires ClaimsUnique(db) && rid in db.redemptions && rid in d.redemptions
    requires d.redemptions == db.redemptions[rid := d.redemptions[rid]]
    requires HoldsClaim(d.redemptions[rid], db.redemptions[rid].userId, db.redemptions[rid].key)
    ensures ClaimsUnique(d)
    ensures TagsSound(db) && d.ledger == db.ledger ==> TagsSound(d)
  {
  }

  lemma FulfilledAccounts(db: Db, rid: string, ref: string)
    requires AllAccounted(db) && rid in db.redemptions && db.redemptions[rid].status == RESERVED
    ensures AllAccounted(Fulfil(db, rid, ref))
  {
    var d := Fulfil(db, rid, ref);
    hide Accounted;
    forall r | r in d.redemptions ensures Accounted(d.ledger, r, d.redemptions[r]) {
      assert Accounted(db.ledger, r, db.redemptions[r]);
      FulfilAccounts(db.ledger, r, db.redemptions[r], d.redemptions[r]);
    }
  }

  lemma FulfilledStock(db: Db, rid: string, ref: string)
    requires rid in db.redemptions && db.redemptions[rid].status == RESERVED
    ensures StockConserved(db, Fulfil(db, rid, ref))
  {
    var d := Fulfil(db, rid, ref);
    forall rw | rw in db.rewards && db.rewards[rw].stock.Some? ensures Units(d, rw) == Units(db, rw) {
      HoldingAfterFulfilment(db.redemptions, rid, d.redemptions[rid], rw);
    }
  }

  lemma FulfilAccounts(l: seq<Entry>, rid: string, r: Redemption, r': Redemption)
    requires Accounted(l, rid, r)
    requires r'.userId == r.userId && r'.cost == r.cost && (r'.status == FAILED <==> r.status == FAILED)
    ensures Accounted(l, rid, r')
  {
    var i :| 0 <= i < |l| && DebitFor(l[i], rid, r) && (r.status == FAILED <==> HasReversal(l, l[i].id));
    assert DebitFor(l[i], rid, r');
  }

  /** A compensation fails only as an append fails, never for want of a key. */
  lemma CompensateErrors(db: Db, v: Reservation, reason: string, eid: string, at: int)
    ensures Compensate(db, v, reason, eid, at).1 != Err(KeyUnclaimable)
  {
    hide FindKey, HasId, HasReversal, ReferencesExist, RowChecks, UserExists;
  }

  /** Compensating again is a no-op: no second refund and no second unit. */
  lemma CompensateTwiceIsOnce(db: Db, v: Reservation, reason: string, eid: string, at: int, again: string, eid': string, at': int)
    requires Compensate(db, v, reason, eid, at).1.Ok?
    ensures var d := Compensate(db, v, reason, eid, at).0;
      Compensate(d, v, again, eid', at') == (d, Ok(false))
  {
    if v.redemptionId in db.redemptions && db.redemptions[v.redemptionId].status == RESERVED {
      var m := MarkFailed(db, v.redemptionId, reason);
      assert Reverse(m, v.entryId, eid, at).0.redemptions == m.redemptions;
    }
  }
}
