/** One small database on which the source's own promises can be seen to fail. */
module Witnesses {
  import opened Schema
  import opened Earning
  import opened Ledger
  import opened Redeeming
  import opened Webhook
  import opened Atoms
  import opened Contention
  import opened Allocation
  import opened Ingestion
  import opened System
  import opened Reachable
  import opened Filed
  import opened Parking
  import opened Calls
  import opened Collisions

  const PURCHASE_RULE := Rule("rule-1", "PURCHASE", 10, 0, None, true)
  const OPENING := Entry("entry-0", "user-1", 100, ADJUSTMENT, "admin", Some("opening"), None, None, None, 0)
  const MUG := Reward("Mug", 50, None, false)

  /** One user with 100 points, one rule, and one reward that is off sale. */
  const SHOP := Db(
    map["ref-1" := "user-1"], [PURCHASE_RULE], [OPENING], map["user-1" := 100], map["mug" := MUG], map[], map[])

  lemma OpeningSums(p: Entry -> bool)
    ensures Sum([OPENING], p) == if p(OPENING) then 100 else 0
  {
    SumPush([], OPENING, p);
    assert [] + [OPENING] == [OPENING];
  }

  lemma ShopLedgerHolds()
    ensures LedgerState(SHOP)
  {
    assert OPENING.source[0] == 'a' && PARTNER_PREFIX[0] == 'p' && REVERSAL_SOURCE[0] == 'r';
    assert WellLabelled(OPENING);
    assert SHOP.users["ref-1"] == "user-1";
    forall u ensures Balance(SHOP, u) == Sum(SHOP.ledger, ByUser(u)) && Balance(SHOP, u) >= Sum(SHOP.ledger, Clawed(u)) {
      OpeningSums(ByUser(u));
      OpeningSums(Clawed(u));
    }
  }

  lemma ShopIsValid()
    ensures Valid(SHOP)
  {
    hide LedgerState;
    ShopLedgerHolds();
  }

  // ----- A flagged duplicate that credits -----

  const PURCHASE := Event("evt-1", "ref-1", "PURCHASE", 0, false, "digest-1")

  /** The first attempt is stored and fails; its retry is flagged as a duplicate, and credits. */
  lemma FlaggedRetryCredits()
    ensures var failed := PostWebhook(SHOP, "acme", PURCHASE, "delivery-1", "entry-1", 0, true).0;
      var (d, r) := PostWebhook(failed, "acme", PURCHASE, "delivery-1", "entry-1", 1, false);
      && failed.deliveries["delivery-1"].status == DELIVERY_FAILED
      && r.Ok? && r.value.duplicate && |d.ledger| == |failed.ledger| + 1
  {
    ShopIsValid();
    hide Valid, Process, PostWebhook;
    assert ResolveRule(SHOP.rules, "PURCHASE", 0) == Some(PURCHASE_RULE);
    assert Some(OPENING.eventId) != Some(Some("evt-1"));
    OutageThenRetry(SHOP, "acme", PURCHASE, "delivery-1", "entry-1", 0, 1);
  }

  // ----- An event sent too early -----

  const PREORDER := Event("evt-2", "ref-1", "PURCHASE", 2 * MAX_EVENT_FUTURE_MS, false, "digest-2")

  lemma ShopIsSound()
    ensures Sound(SHOP)
  {
    ShopIsValid();
    hide Valid;
  }

  /** Sent two hours ahead it is answered 400, and so is the same event sent again when it happens; sent only then
      it would have been credited. */
  lemma EarlyEventIsLost()
    ensures var (early, _) := PostWebhook(SHOP, "acme", PREORDER, "delivery-1", "entry-1", 0, false);
      var (again, r) := PostWebhook(early, "acme", PREORDER, "delivery-2", "entry-1", PREORDER.occurredAt, false);
      var (once, _) := PostWebhook(SHOP, "acme", PREORDER, "delivery-1", "entry-1", PREORDER.occurredAt, false);
      && r.Ok? && r.value.code == 400 && again.ledger == early.ledger
      && !KeyCredited(early, "acme", "evt-2") && KeyCredited(once, "acme", "evt-2")
  {
    ShopIsSound();
    assert ResolveRule(SHOP.rules, "PURCHASE", PREORDER.occurredAt) == Some(PURCHASE_RULE);
    assert OPENING.id == "entry-0" && "entry-0"[6] == '0' && "entry-1"[6] == '1';
    hide Sound, PostWebhook, KeyCredited;
    var early := PostWebhook(SHOP, "acme", PREORDER, "delivery-1", "entry-1", 0, false).0;
    assert Chronicle(early, [], 0) && Finally(early, []) == early;
    UntimelyEventSpendsItsKey(SHOP, "acme", PREORDER, "delivery-1", "entry-1", 0,
                              [], PREORDER, "delivery-2", "entry-1", PREORDER.occurredAt, false);
    FirstRequestCreditsExactly(SHOP, "acme", PREORDER, "delivery-1", "entry-1", PREORDER.occurredAt);
  }

  // ----- A gift the user pays for -----

  const FIRST := Ids("credit-1", "redemption-1", "debit-1", "refund-1", "undo-1")
  const SECOND := Ids("credit-2", "redemption-2", "debit-2", "refund-2", "undo-2")

  /** Refused while the mug was off sale, the same allocation run again once it is on sale costs the user 50. */
  lemma RetriedGiftIsPaidFor()
    ensures var refused := AllocateOne(SHOP, "user-1", "mug", 50, "gift:user-1", FIRST, 1, Issued("voucher")).0;
      var reopened := Reopened(refused, "mug", MUG.(active := true));
      var (d, r) := AllocateOne(reopened, "user-1", "mug", 50, "gift:user-1", SECOND, 2, Issued("voucher"));
      r == Ok(ALLOCATED) && Balance(refused, "user-1") == 100 && Balance(d, "user-1") == 50
  {
    ShopIsValid();
    ShopIsAllocatable();
    hide Valid, AllocateOne, Allocatable, Evolves, FreshIds;
    RefusalLeaves(SHOP, "user-1", "mug", 50, "gift:user-1", FIRST, 1, Issued("voucher"));
    var refused := AllocateOne(SHOP, "user-1", "mug", 50, "gift:user-1", FIRST, 1, Issued("voucher")).0;
    ReopenedIsValid(refused, "mug", MUG.(active := true));
    SecondIdsAreFresh(refused);
    RefusedThenRetriedIsPaidByTheUser(SHOP, "user-1", "mug", 50, "gift:user-1", FIRST, 1, Issued("voucher"),
                                      MUG.(active := true), SECOND, 2, "voucher");
  }

  lemma ShopIsAllocatable()
    ensures Allocatable(SHOP, "user-1", "mug", 50, "gift:user-1", FIRST)
  {
    ShopIsValid();
    hide Valid;
    assert SHOP.users["ref-1"] == "user-1";
    assert OPENING.eventId.value[0] == 'o' && "gift:user-1"[0] == 'g';
    assert OPENING.id[0] == 'e';
  }

  lemma ReopenedIsValid(db: Db, rw: string, reward: Reward)
    requires Valid(db) && rw in db.rewards && reward.cost > 0 && reward == db.rewards[rw].(active := true)
    ensures Valid(Reopened(db, rw, reward))
  {
    hide Valid, Evolves;
    var e := EditReward(rw, reward.name, reward.cost, true);
    EditKeepsValid(Sys(db, map[], map[]), e);
    assert Edited(db, e) == Reopened(db, rw, reward);
  }

  predicate Numbered(ids: Ids, digit: char) {
    EndsIn(ids.credit, digit) && EndsIn(ids.debit, digit) && EndsIn(ids.refund, digit) && EndsIn(ids.undo, digit) && EndsIn(ids.rid, digit)
  }

  predicate EndsIn(s: string, digit: char) {
    s != "" && s[|s| - 1] == digit
  }

  lemma NumbersApart(a: Ids, b: Ids)
    requires Numbered(a, '1') && Numbered(b, '2')
    ensures Apart(a, b)
  {
  }

  lemma SecondIdsAreFresh(refused: Db)
    requires refused == AllocateOne(SHOP, "user-1", "mug", 50, "gift:user-1", FIRST, 1, Issued("voucher")).0
    ensures FreshIds(Reopened(refused, "mug", MUG.(active := true)), SECOND)
  {
    hide Valid, AllocateOne, Allocatable, Moved, OnlyOwn, Apart;
    ShopIsAllocatable();
    AllocationNets(SHOP, "user-1", "mug", 50, "gift:user-1", FIRST, 1, Issued("voucher"));
    NumbersApart(FIRST, SECOND);
    SecondIdsAreNew();
    OtherIdsStayFresh(SHOP, refused, "user-1", "gift:user-1", FIRST, SECOND);
  }

  lemma SecondIdsAreNew()
    ensures FreshIds(SHOP, SECOND)
  {
    assert OPENING.id[|OPENING.id| - 1] == '0';
    assert SECOND.credit[0] == 'c' && SECOND.debit[0] == 'd' && SECOND.refund[0] == 'r' && SECOND.undo[0] == 'u';
  }
}
