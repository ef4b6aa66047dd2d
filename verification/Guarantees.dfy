/** What every run of the concurrent system guarantees: any number of transactions, interleaved statement
    by statement, with rollbacks, crashes and catalogue edits in between. */
module Guarantees {
  import opened Schema
  import opened Earning
  import opened Ledger
  import opened Redeeming
  import opened Webhook
  import opened Atoms
  import opened Statements
  import opened System
  import opened Safety
  import opened Reachable
  import opened Shapes
  import opened Reversals

  lemma ReachableValid(acts: seq<Action>)
    requires IsRun(START, acts)
    ensures SysInv(After(START, acts)) && Valid(After(START, acts).db) && ShapesOk(After(START, acts))
  {
    hide SysInv, Valid, ShapesOk, After, IsRun;
    StartHolds();
    NothingOpenYet();
    RunKeeps(START, acts);
    RunKeepsShapes(START, acts);
    SysValid(After(START, acts));
  }

  lemma NothingOpenYet()
    ensures ShapesOk(START)
  {
  }

  /** Reconciliation never finds anything, and every cached balance is the sum of its rows. */
  lemma BalancesNeverDrift(acts: seq<Action>)
    requires IsRun(START, acts)
    ensures var db := After(START, acts).db;
      Reconcile(db) == {} && (forall u :: Balance(db, u) == Sum(db.ledger, ByUser(u)))
  {
    hide SysInv, RedemptionInv, DeliveryInv, RulesInv, ShapesOk, After, IsRun, LedgerInv, FloorHolds;
    ReachableValid(acts);
    ReconcileFindsExactlyTheDrifted(After(START, acts).db);
  }

  /** A balance is never below what corrections alone took away, so a user never clawed back is never negative. */
  lemma BalancesHaveAFloor(acts: seq<Action>, u: string)
    requires IsRun(START, acts)
    ensures var db := After(START, acts).db;
      && Balance(db, u) >= Sum(db.ledger, Clawed(u))
      && ((forall i :: 0 <= i < |db.ledger| ==> !Clawed(u)(db.ledger[i])) ==> Balance(db, u) >= 0)
  {
    hide SysInv, RedemptionInv, DeliveryInv, RulesInv, ShapesOk, After, IsRun, LedgerInv, BalancesMatch;
    ReachableValid(acts);
    var db := After(START, acts).db;
    if forall i :: 0 <= i < |db.ledger| ==> !Clawed(u)(db.ledger[i]) {
      NothingClawed(db.ledger, u);
    }
  }

  /** No spend ever commits a balance below zero: whatever transaction commits a reservation leaves its user
      with what the price left, and that is not negative. */
  lemma RedeemNeverCommitsBelowZero(acts: seq<Action>, t: nat, i: nat)
    requires IsRun(START, acts) && Enabled(After(START, acts), Commit(t))
    requires i < |After(START, acts).txs[t].done| && After(START, acts).txs[t].done[i].AtomReserve?
    ensures var s := After(START, acts);
      var row := s.txs[t].done[i].row;
      Balance(Next(s, Commit(t)).db, row.userId) == Balance(s.db, row.userId) - row.cost >= 0
  {
    hide SysInv, Valid, ShapesOk, After, IsRun, Next;
    ReachableValid(acts);
    ClaimCommitsAlone(After(START, acts), t, i);
  }

  lemma ClaimCommitsAlone(s: Sys, t: nat, i: nat)
    requires SysInv(s) && ShapesOk(s) && Enabled(s, Commit(t))
    requires i < |s.txs[t].done| && s.txs[t].done[i].AtomReserve?
    ensures var row := s.txs[t].done[i].row;
      Balance(Next(s, Commit(t)).db, row.userId) == Balance(s.db, row.userId) - row.cost >= 0
  {
    hide SysInv, Valid, Evolves, Steps, Succeed, Succeeds, Effect, See, ReplyOk;
    assert Shaped(s.txs[t]);
    CommitIsAtomic(s, t);
    OneStep(s.txs[t].done, s.db);
    ReserveLeavesCover(s.db, s.txs[t].done[0]);
  }

  lemma ReserveLeavesCover(db: Db, a: Atom)
    requires a.AtomReserve? && Succeeds(a, db)
    ensures Balance(Effect(a, db), a.row.userId) == Balance(db, a.row.userId) - a.row.cost >= 0
  {
    hide ReserveWith;
    ReserveShape(db, a.rid, a.row, a.limited, a.eid, a.at);
  }

  lemma {:induction false} NothingClawed(l: seq<Entry>, u: string)
    requires forall i :: 0 <= i < |l| ==> !Clawed(u)(l[i])
    ensures Sum(l, Clawed(u)) == 0
  {
    if l != [] {
      NothingClawed(l[..|l| - 1], u);
    }
  }

  /** Every balance is what its odd-length reversal chains leave standing. */
  lemma BalancesAreWhatStands(acts: seq<Action>, u: string)
    requires IsRun(START, acts)
    ensures LedgerInv(After(START, acts).db.ledger)
    ensures Balance(After(START, acts).db, u) == StandingSum(After(START, acts).db.ledger, u, 0)
  {
    hide SysInv, RedemptionInv, DeliveryInv, RulesInv, ShapesOk, After, IsRun;
    ReachableValid(acts);
    LedgerOfState(After(START, acts).db);
    BalanceIsWhatStands(After(START, acts).db, u);
  }

  /** A committed redemption has exactly one debit, of minus its snapshot; it is FAILED exactly when that
      debit is reversed; and its rows sum to minus the cost, or to nothing once it has FAILED. */
  lemma RedemptionsAlwaysAccounted(acts: seq<Action>, rid: string)
    requires IsRun(START, acts) && rid in After(START, acts).db.redemptions
    ensures var db := After(START, acts).db;
      var r := db.redemptions[rid];
      && (exists i :: 0 <= i < |db.ledger| && DebitFor(db.ledger[i], rid, r) && (r.status == FAILED <==> HasReversal(db.ledger, db.ledger[i].id)))
      && (forall i, j :: 0 <= i < j < |db.ledger| && db.ledger[i].kind == REDEEM && db.ledger[j].kind == REDEEM
            ==> db.ledger[i].redemptionId != db.ledger[j].redemptionId)
      && (forall i, j :: 0 <= i < j < |db.ledger| && db.ledger[i].reversesId.Some? ==> db.ledger[i].reversesId != db.ledger[j].reversesId)
      && Sum(db.ledger, ByRedemption(rid)) == (if r.status == FAILED then 0 else -r.cost)
  {
    hide SysInv, DeliveryInv, RulesInv, ShapesOk, After, IsRun, ClaimsUnique, RowsSound, LedgerState, HasReversal;
    ReachableValid(acts);
    var db := After(START, acts).db;
    assert Accounted(db.ledger, rid, db.redemptions[rid]);
    LedgerOfState(db);
    ReversedOnce(db.ledger);
  }

  lemma ReversedOnce(l: seq<Entry>)
    requires LedgerInv(l)
    ensures forall i, j :: 0 <= i < j < |l| && l[i].reversesId.Some? ==> l[i].reversesId != l[j].reversesId
  {
    hide UndoesEarlier, RowChecks;
    forall i, j | 0 <= i < j < |l| && l[i].reversesId.Some? ensures l[i].reversesId != l[j].reversesId {
      assert WellLabelled(l[i]) && WellLabelled(l[j]);
    }
  }

  /** A terminal status is final and the snapshots never change, whatever happens later. */
  lemma SettledForGood(acts: seq<Action>, more: seq<Action>, rid: string)
    requires IsRun(START, acts) && IsRun(After(START, acts), more) && rid in After(START, acts).db.redemptions
    ensures var a, z := After(START, acts), After(After(START, acts), more);
      rid in z.db.redemptions && LaterRedemption(a.db.redemptions[rid], z.db.redemptions[rid])
  {
    hide SysInv, Valid, ShapesOk, After, IsRun, Evolves, LaterRedemption;
    ReachableValid(acts);
    RunKeeps(After(START, acts), more);
    RedemptionPersists(After(START, acts).db, After(After(START, acts), more).db, rid);
  }

  /** From the moment a limited reward is added, its stock plus the redemptions holding a unit is the stock
      it was added with; stock is never negative and unlimited stays unlimited. */
  lemma StockIsConserved(acts: seq<Action>, rw: string, reward: Reward, more: seq<Action>)
    requires IsRun(START, acts) && Enabled(After(START, acts), Change(AddReward(rw, reward)))
    requires IsRun(Next(After(START, acts), Change(AddReward(rw, reward))), more)
    ensures var z := After(Next(After(START, acts), Change(AddReward(rw, reward))), more);
      && rw in z.db.rewards
      && (reward.stock.None? <==> z.db.rewards[rw].stock.None?)
      && (reward.stock.Some? ==>
            z.db.rewards[rw].stock.value >= 0 && Units(z.db, rw) == reward.stock.value)
  {
    var s := After(START, acts);
    var added := Next(s, Change(AddReward(rw, reward)));
    hide SysInv, ShapesOk, After, IsRun, Evolves, Enabled, LedgerState, DeliveryInv, RulesInv, TagsSound, ClaimsUnique, AllAccounted;
    ReachableValid(acts);
    ActionKeeps(s, Change(AddReward(rw, reward)));
    RunKeeps(added, more);
    SysValid(After(added, more));
    StockPart(added.db, After(added, more).db);
    AddedReward(s, rw, reward);
  }

  lemma StockPart(db: Db, d: Db)
    requires Evolves(db, d)
    ensures StockConserved(db, d)
  {
    hide LaterRedemption, SameDelivery, StockConserved;
  }

  lemma AddedReward(s: Sys, rw: string, reward: Reward)
    requires Valid(s.db) && Enabled(s, Change(AddReward(rw, reward)))
    ensures var added := Next(s, Change(AddReward(rw, reward)));
      rw in added.db.rewards && added.db.rewards[rw] == reward && (reward.stock.Some? ==> Units(added.db, rw) == reward.stock.value)
  {
    hide LedgerState, DeliveryInv, RulesInv, TagsSound, ClaimsUnique, AllAccounted;
    assert Holding(s.db.redemptions, rw) == {};
  }

  // ----- Idempotency keys -----

  /** The transaction is ready to commit a reservation under this key. */
  ghost predicate ClaimReady(s: Sys, t: nat, userId: string, key: string) {
    && Enabled(s, Commit(t)) && |s.txs[t].done| == 1 && s.txs[t].done[0].AtomReserve?
    && s.txs[t].done[0].row.userId == userId && s.txs[t].done[0].row.key == key
  }

  /** Once one request has committed its claim on a key, no other claim on it can ever commit. */
  lemma KeyClaimedOnce(acts: seq<Action>, t: nat, more: seq<Action>, u: nat, userId: string, key: string)
    requires IsRun(START, acts) && ClaimReady(After(START, acts), t, userId, key)
    requires IsRun(Next(After(START, acts), Commit(t)), more)
    ensures !ClaimReady(After(Next(After(START, acts), Commit(t)), more), u, userId, key)
  {
    var s := After(START, acts);
    var claimed := Next(s, Commit(t));
    var z := After(claimed, more);
    hide SysInv, Valid, ShapesOk, After, IsRun, Evolves, LaterRedemption, Steps, Succeed, Succeeds, Effect;
    ReachableValid(acts);
    var a := s.txs[t].done[0];
    CommitClaims(s, t);
    ActionKeeps(s, Commit(t));
    RunKeeps(claimed, more);
    RedemptionPersists(claimed.db, z.db, a.rid);
    LaterKeepsClaim(claimed.db.redemptions[a.rid], z.db.redemptions[a.rid]);
    if ClaimReady(z, u, userId, key) {
      CommitClaims(z, u);
    }
  }

  lemma LaterKeepsClaim(a: Redemption, b: Redemption)
    requires LaterRedemption(a, b)
    ensures a.userId == b.userId && a.key == b.key && a.cost == b.cost && a.rewardName == b.rewardName && a.rewardId == b.rewardId
  {
  }

  /** A claim commits only if its key was free, and then holds it. */
  lemma CommitClaims(s: Sys, t: nat)
    requires SysInv(s) && Enabled(s, Commit(t)) && |s.txs[t].done| == 1 && s.txs[t].done[0].AtomReserve?
    ensures var a := s.txs[t].done[0];
      && FindByKey(s.db, a.row.userId, a.row.key).None?
      && a.rid in Next(s, Commit(t)).db.redemptions && Next(s, Commit(t)).db.redemptions[a.rid] == a.row
  {
    hide SysInv, Steps, Succeed, Succeeds, Effect, Valid, Evolves, See;
    CommitIsAtomic(s, t);
    OneStep(s.txs[t].done, s.db);
    ReserveHolds(s.db, s.txs[t].done[0]);
  }

  lemma ReserveHolds(db: Db, a: Atom)
    requires a.AtomReserve? && Succeeds(a, db)
    ensures FindByKey(db, a.row.userId, a.row.key).None?
    ensures a.rid in Effect(a, db).redemptions && Effect(a, db).redemptions[a.rid] == a.row
  {
    hide ReserveWith;
    ReserveShape(db, a.rid, a.row, a.limited, a.eid, a.at);
  }

  /** A request answered from an earlier one names the one redemption committed under its key, and its
      own transaction changes nothing: no row, no balance, no stock. */
  lemma ReplayCommits(s: Sys, t: nat)
    requires SysInv(s) && ShapesOk(s) && Enabled(s, Commit(t)) && s.txs[t].reply.Some?
    ensures var r := s.txs[t].reply.value;
      && FindByKey(s.db, r.userId, r.key) == Some(r.rid)
      && Next(s, Commit(t)).db == s.db && Next(s, Commit(t)).owners == s.owners
  {
    hide SysInv, Valid, Evolves, Steps, Succeed, See, Shaped;
    assert ReplyOk(s.db, s.txs[t]);
    SysValid(s);
    CommitIsAtomic(s, t);
    ReplaySteps(s.txs[t], s.db);
    KeyFindsItsOwn(s.db, s.txs[t].reply.value.userId, s.txs[t].reply.value.key, s.txs[t].reply.value.rid);
  }

  lemma ReplaySteps(tx: Tx, db: Db)
    requires tx.reply.Some? && OnlyReplays(tx, tx.reply.value.rid) && tx.plan == [] && Succeed(tx.done, db)
    ensures Steps(tx.done, db) == db
  {
    if tx.done != [] {
      assert tx.done[..0] == [];
    }
  }

  lemma KeyFindsItsOwn(db: Db, userId: string, key: string, rid: string)
    requires Valid(db) && rid in db.redemptions && HoldsClaim(db.redemptions[rid], userId, key)
    ensures FindByKey(db, userId, key) == Some(rid)
  {
    hide LedgerState, DeliveryInv, RulesInv, TagsSound, AllAccounted, RowsSound;
  }

  /** Rolling back leaves no trace: the database and the owners are as they were, and every lock the
      transaction held, its claim included, is free again. */
  lemma RollbackLeavesNoTrace(acts: seq<Action>, t: nat, u: nat, r: Resource)
    requires IsRun(START, acts) && t in After(START, acts).txs && r in After(START, acts).txs[t].work.locks
    ensures var s := After(START, acts);
      var s' := Next(s, Rollback(t));
      s'.db == s.db && s'.owners == s.owners && !HeldByOther(s', u, r)
  {
    hide SysInv, Valid, ShapesOk, After, IsRun;
    var s := After(START, acts);
    ReachableValid(acts);
    if HeldByOther(Next(s, Rollback(t)), u, r) {
      var v :| v in Next(s, Rollback(t)).txs && v != u && r in s.txs[v].work.locks;
      TxFacts(s, v);
    }
  }

  // ----- Ownership of phase two -----

  /** The unconditional FULFILLED write always lands on a RESERVED row: it is issued only by the caller
      that claimed the redemption, and that caller never also compensates. */
  lemma FulfilmentNeverOverwrites(acts: seq<Action>, t: nat)
    requires IsRun(START, acts) && t in After(START, acts).txs && After(START, acts).txs[t].role.Fulfilling?
    ensures var s := After(START, acts);
      var rid := s.txs[t].role.rid;
      && rid in s.db.redemptions && s.db.redemptions[rid].status == RESERVED
      && forall u :: u in s.txs && u != t ==> s.txs[u].role != Fulfilling(rid) && s.txs[u].role != Compensating(rid)
  {
    hide Valid, ShapesOk, After, IsRun, TxInv, RoleOk, OwnerOk;
    ReachableValid(acts);
  }

  // ----- Webhook credits -----

  /** A rule that was in force when the event happened names the credit and its points. */
  ghost predicate RightlyPriced(db: Db, e: Entry, d: Delivery) {
    && Acceptable(d.body)
    && e.kind == EARN && e.source == PARTNER_PREFIX + d.partner && e.eventId == Some(d.key)
    && exists r :: r in db.rules && e.ruleId == Some(r.id) && e.delta == r.points
         && r.activityType == d.body.activityType && Covers(r, d.body.occurredAt)
  }

  /** Each partner event is credited at most once, however often it is delivered, retried or replayed. */
  lemma CreditedAtMostOnce(acts: seq<Action>, i: nat, j: nat)
    requires IsRun(START, acts) && i < j < |After(START, acts).db.ledger|
    ensures var l := After(START, acts).db.ledger;
      l[i].kind == EARN ==> !(l[j].kind == EARN && l[i].source == l[j].source && l[i].eventId == l[j].eventId)
  {
    hide SysInv, RedemptionInv, RulesInv, ShapesOk, After, IsRun, ProcessedCredited, WellLabelled, UndoesEarlier;
    ReachableValid(acts);
    var db := After(START, acts).db;
    LedgerOfState(db);
    if db.ledger[j].kind == EARN {
      assert Explained(db, db.ledger[j]);
      assert !HoldsKey(db.ledger[i], db.ledger[j].source, db.ledger[j].eventId);
    }
  }

  /** A PROCESSED delivery has been credited, under its own key, by the rule its credit names. */
  lemma ProcessedMeansCredited(acts: seq<Action>, did: string)
    requires IsRun(START, acts) && did in After(START, acts).db.deliveries
    requires After(START, acts).db.deliveries[did].status == PROCESSED
    ensures var db := After(START, acts).db;
      exists i :: 0 <= i < |db.ledger| && RightlyPriced(db, db.ledger[i], db.deliveries[did])
  {
    hide SysInv, RedemptionInv, LedgerState, RulesInv, ShapesOk, After, IsRun, EarnsExplained, KeysResolved, DeliveriesUnique;
    ReachableValid(acts);
    var db := After(START, acts).db;
    var d := db.deliveries[did];
    assert CreditedFor(db, d);
    var i :| 0 <= i < |db.ledger| && EarnedBy(db, db.ledger[i], d);
    assert RightlyPriced(db, db.ledger[i], d);
  }
}
