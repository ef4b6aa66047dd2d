/** Two-phase locking pays off: re-run at any later moment against what is committed by then, the
    statements a transaction has executed would do exactly what they did. */
module Stability {
  import opened Schema
  import opened Earning
  import opened Ledger
  import opened Redeeming
  import opened Webhook
  import opened Atoms
  import opened Statements

  /** The statement does the same against either database. */
  ghost predicate SameRun(s: Stmt, db: Db, d: Db, w: Work) {
    && Can(s, See(db, w), w) && Can(s, See(d, w), w)
    && Exec(s, d, w) == Exec(s, db, w)
  }

  lemma InsertBalanceDoes(u: string, db: Db, w: Work)
    ensures var v := See(db, w);
      && (Can(InsertBalance(u), v, w) <==> u in v.balances || UserExists(v, u))
      && (Can(InsertBalance(u), v, w) ==>
            Exec(InsertBalance(u), db, w) ==
              if u in v.balances then w else w.(balances := w.balances[u := 0], locks := w.locks + {BalanceRow(u)}))
  {
    hide See, UserExists;
    assert w.locks + {} == w.locks;
  }

  lemma UserStays(db: Db, d: Db, u: string, w: Work, locks: set<Resource>)
    requires Undisturbed(db, d, locks) && UserExists(See(db, w), u)
    ensures UserExists(See(d, w), u)
  {
    hide BalancesUndisturbed, RewardsUndisturbed, RedemptionsUndisturbed, DeliveriesUndisturbed, LedgerUndisturbed;
    var ref :| ref in db.users && db.users[ref] == u;
    assert d.users[ref] == u;
  }

  lemma MaterialiseStable(s: Stmt, db: Db, d: Db, w: Work)
    requires s.InsertBalance?
    requires Can(s, See(db, w), w) && Undisturbed(db, d, Exec(s, db, w).locks)
    ensures SameRun(s, db, d, w)
  {
    hide RewardsUndisturbed, RedemptionsUndisturbed, DeliveriesUndisturbed, LedgerUndisturbed, Can, Exec, UserExists;
    InsertBalanceDoes(s.userId, db, w);
    InsertBalanceDoes(s.userId, d, w);
    if UserExists(See(db, w), s.userId) {
      UserStays(db, d, s.userId, w, Exec(s, db, w).locks);
    }
  }

  lemma LockedReadStable(s: Stmt, db: Db, d: Db, w: Work)
    requires s.SelectBalance?
    requires Can(s, See(db, w), w) && Undisturbed(db, d, Exec(s, db, w).locks)
    ensures SameRun(s, db, d, w)
  {
    hide RewardsUndisturbed, RedemptionsUndisturbed, DeliveriesUndisturbed, LedgerUndisturbed;
    assert BalanceRow(s.userId) in Exec(s, db, w).locks;
  }

  lemma BalanceWriteStable(s: Stmt, db: Db, d: Db, w: Work)
    requires s.UpdateBalance?
    requires Can(s, See(db, w), w) && Undisturbed(db, d, Exec(s, db, w).locks)
    ensures SameRun(s, db, d, w)
  {
    hide RewardsUndisturbed, RedemptionsUndisturbed, DeliveriesUndisturbed, LedgerUndisturbed;
  }

  lemma DecrementStable(s: Stmt, db: Db, d: Db, w: Work)
    requires s.DecrementStock?
    requires Can(s, See(db, w), w) && Undisturbed(db, d, Exec(s, db, w).locks)
    ensures SameRun(s, db, d, w)
  {
    hide BalancesUndisturbed, RedemptionsUndisturbed, DeliveriesUndisturbed, LedgerUndisturbed;
    assert RewardRow(s.rw) in Exec(s, db, w).locks;
    assert See(d, w).rewards[s.rw] == See(db, w).rewards[s.rw];
  }

  lemma IncrementStable(s: Stmt, db: Db, d: Db, w: Work)
    requires s.IncrementStock?
    requires Can(s, See(db, w), w) && Undisturbed(db, d, Exec(s, db, w).locks)
    ensures SameRun(s, db, d, w)
  {
    hide See, Undisturbed;
    var v := See(db, w);
    RewardSeenAlike(db, d, w, s.rw, v.rewards[s.rw].stock.Some?, Exec(s, db, w).locks);
  }

  lemma RewardSeenAlike(db: Db, d: Db, w: Work, rw: string, locked: bool, locks: set<Resource>)
    requires Undisturbed(db, d, locks) && rw in See(db, w).rewards && (locked ==> RewardRow(rw) in locks)
    ensures rw in See(d, w).rewards && (See(d, w).rewards[rw].stock.Some? <==> See(db, w).rewards[rw].stock.Some?)
    ensures locked ==> See(d, w).rewards[rw] == See(db, w).rewards[rw]
  {
    hide BalancesUndisturbed, RedemptionsUndisturbed, DeliveriesUndisturbed, LedgerUndisturbed;
  }

  lemma ClaimStable(s: Stmt, db: Db, d: Db, w: Work)
    requires s.InsertRedemption?
    requires Can(s, See(db, w), w) && Undisturbed(db, d, Exec(s, db, w).locks)
    ensures SameRun(s, db, d, w)
  {
    hide BalancesUndisturbed, RewardsUndisturbed, DeliveriesUndisturbed, LedgerUndisturbed;
    var v, v' := See(db, w), See(d, w);
    var ref :| ref in db.users && db.users[ref] == s.row.userId;
    assert d.users[ref] == s.row.userId;
    assert ClaimKey(s.row.userId, s.row.key) in Exec(s, db, w).locks;
    assert RedemptionRow(s.rid) in Exec(s, db, w).locks;
    forall rid | rid in v'.redemptions ensures !HoldsClaim(v'.redemptions[rid], s.row.userId, s.row.key) {
      if rid in v.redemptions {
        assert !HoldsClaim(v.redemptions[rid], s.row.userId, s.row.key);
      }
    }
  }

  /** What the statements that lock one redemption do, given the row they see. */
  lemma RedemptionStmtDoes(s: Stmt, db: Db, w: Work)
    requires s.SelectRedemption? || s.SetFulfilled? || s.SetFailed?
    ensures var rs := See(db, w).redemptions;
      && (Can(s, See(db, w), w) <==> s.rid in rs && (s.SetFailed? ==> rs[s.rid].status == RESERVED))
      && (Can(s, See(db, w), w) ==>
            Exec(s, db, w).locks == w.locks + {RedemptionRow(s.rid)} &&
            Exec(s, db, w).(locks := w.locks) ==
              if s.SetFulfilled? then w.(redemptions := w.redemptions[s.rid := rs[s.rid].(status := FULFILLED, fulfillmentRef := Some(s.ref))])
              else if s.SetFailed? then w.(redemptions := w.redemptions[s.rid := rs[s.rid].(status := FAILED, failureReason := Some(s.reason))])
              else w)
  {
    hide See;
  }

  lemma RedemptionStable(s: Stmt, db: Db, d: Db, w: Work)
    requires s.SelectRedemption? || s.SetFulfilled? || s.SetFailed?
    requires Can(s, See(db, w), w) && Undisturbed(db, d, Exec(s, db, w).locks)
    ensures SameRun(s, db, d, w)
  {
    hide BalancesUndisturbed, RewardsUndisturbed, DeliveriesUndisturbed, LedgerUndisturbed, Can, Exec;
    RedemptionStmtDoes(s, db, w);
    RedemptionStmtDoes(s, d, w);
  }

  lemma ArrivalStable(s: Stmt, db: Db, d: Db, w: Work)
    requires s.InsertDelivery?
    requires Can(s, See(db, w), w) && Undisturbed(db, d, Exec(s, db, w).locks)
    ensures SameRun(s, db, d, w)
  {
    hide BalancesUndisturbed, RewardsUndisturbed, RedemptionsUndisturbed, LedgerUndisturbed;
    var v, v' := See(db, w), See(d, w);
    assert DeliveryKey(s.d.partner, s.d.key) in Exec(s, db, w).locks;
    assert DeliveryRow(s.did) in Exec(s, db, w).locks;
    forall did | did in v'.deliveries ensures !Received(v'.deliveries[did], s.d.partner, s.d.key) {
      if did in v.deliveries {
        assert !Received(v.deliveries[did], s.d.partner, s.d.key);
      }
    }
  }

  lemma DeliveryStable(s: Stmt, db: Db, d: Db, w: Work)
    requires s.AlterDelivery?
    requires Can(s, See(db, w), w) && Undisturbed(db, d, Exec(s, db, w).locks)
    ensures SameRun(s, db, d, w)
  {
    hide BalancesUndisturbed, RewardsUndisturbed, RedemptionsUndisturbed, LedgerUndisturbed, Alter;
    assert DeliveryRow(s.did) in Exec(s, db, w).locks;
  }

  /** A row of the later ledger was in the earlier one or is somebody else's newcomer. */
  lemma RowOldOrNew(db: Db, d: Db, w: Work, x: Entry)
    requires db.ledger <= d.ledger && x in See(d, w).ledger
    ensures x in See(db, w).ledger || exists i :: |db.ledger| <= i < |d.ledger| && d.ledger[i] == x
  {
    var k :| 0 <= k < |See(d, w).ledger| && See(d, w).ledger[k] == x;
    if k < |db.ledger| {
      assert See(db, w).ledger[k] == x;
    } else if k < |d.ledger| {
      assert d.ledger[k] == x;
    } else {
      assert See(db, w).ledger[k - |d.ledger| + |db.ledger|] == x;
    }
  }

  lemma RowsKept(db: Db, d: Db, w: Work, x: Entry)
    requires db.ledger <= d.ledger && x in See(db, w).ledger
    ensures x in See(d, w).ledger
  {
    var k :| 0 <= k < |See(db, w).ledger| && See(db, w).ledger[k] == x;
    if k < |db.ledger| {
      assert See(d, w).ledger[k] == x;
    } else {
      assert See(d, w).ledger[k - |db.ledger| + |d.ledger|] == x;
    }
  }

  /** A dedupe key that is taken stays taken. */
  lemma TakenStable(db: Db, d: Db, w: Work, e: Entry)
    requires db.ledger <= d.ledger && Taken(See(db, w), e)
    ensures Taken(See(d, w), e)
  {
    var l := See(db, w).ledger;
    var i :| 0 <= i < |l| && HoldsKey(l[i], e.source, e.eventId);
    RowsKept(db, d, w, l[i]);
  }

  /** Holding its locks, an insert that found its keys free would find them free again. */
  lemma FreeStable(db: Db, d: Db, w: Work, e: Entry, locks: set<Resource>)
    requires LedgerUndisturbed(db, d, locks) && EntryLocks(e) <= locks
    ensures !Taken(See(db, w), e) ==> !Taken(See(d, w), e)
    ensures !HasId(See(db, w).ledger, e.id) ==> !HasId(See(d, w).ledger, e.id)
    ensures e.reversesId.Some? && !HasReversal(See(db, w).ledger, e.reversesId.value)
        ==> !HasReversal(See(d, w).ledger, e.reversesId.value)
  {
    forall x | x in See(d, w).ledger
      ensures x in See(db, w).ledger ||
        (x.id != e.id && !HoldsKey(x, e.source, e.eventId) && (e.reversesId.Some? ==> x.reversesId != e.reversesId))
    {
      RowOldOrNew(db, d, w, x);
      if x !in See(db, w).ledger {
        var i :| |db.ledger| <= i < |d.ledger| && d.ledger[i] == x;
        assert EntryLocks(d.ledger[i]) !! locks;
        NewcomerDiffers(x, e, locks);
      }
    }
    FreeMeansNobody(See(db, w).ledger, e);
    FreeMeansNobody(See(d, w).ledger, e);
  }

  lemma NewcomerDiffers(x: Entry, e: Entry, locks: set<Resource>)
    requires EntryLocks(x) !! locks && EntryLocks(e) <= locks
    ensures x.id != e.id && !HoldsKey(x, e.source, e.eventId) && (e.reversesId.Some? ==> x.reversesId != e.reversesId)
  {
    assert EntryPk(x.id) in EntryLocks(x) && EntryPk(e.id) in EntryLocks(e);
    if x.eventId.Some? && e.eventId.Some? {
      assert LedgerKey(x.source, x.eventId.value) in EntryLocks(x);
      assert LedgerKey(e.source, e.eventId.value) in EntryLocks(e);
    }
    if x.reversesId.Some? && e.reversesId.Some? {
      assert ReversesKey(x.reversesId.value) in EntryLocks(x);
      assert ReversesKey(e.reversesId.value) in EntryLocks(e);
    }
  }

  lemma FreeMeansNobody(l: seq<Entry>, e: Entry)
    ensures FindKey(l, e.source, e.eventId).None? <==> forall x :: x in l ==> !HoldsKey(x, e.source, e.eventId)
  {
  }

  /** Neither the id nor the reversal's target is in use. */
  predicate FreeFor(l: seq<Entry>, e: Entry) {
    !HasId(l, e.id) && !(e.reversesId.Some? && HasReversal(l, e.reversesId.value))
  }

  lemma InsertEntryDoes(e: Entry, db: Db, w: Work)
    ensures var v := See(db, w);
      && (Can(InsertEntry(e), v, w) <==> RowChecks(e.delta, e.kind) && (Taken(v, e) || (FreeFor(v.ledger, e) && RefersToRows(v, e))))
      && (Can(InsertEntry(e), v, w) ==>
            Exec(InsertEntry(e), db, w) ==
              if Taken(v, e) then w.(inserted := false)
              else w.(entries := w.entries + [e], inserted := true, locks := w.locks + EntryLocks(e)))
  {
    hide See, Taken, RowChecks, RefersToRows, EntryLocks, HasId, HasReversal;
    assert w.locks + {} == w.locks;
  }

  lemma EntryStable(s: Stmt, db: Db, d: Db, w: Work)
    requires s.InsertEntry?
    requires Can(s, See(db, w), w) && Undisturbed(db, d, Exec(s, db, w).locks)
    ensures SameRun(s, db, d, w)
  {
    hide HasId, HasReversal, EntryLocks, Taken, RefersToRows, RowChecks, Undisturbed, Can, Exec, See;
    LedgerPart(db, d, Exec(s, db, w).locks);
    InsertEntryDoes(s.e, db, w);
    InsertEntryDoes(s.e, d, w);
    if Taken(See(db, w), s.e) {
      TakenStable(db, d, w, s.e);
    } else {
      FreeStable(db, d, w, s.e, Exec(s, db, w).locks);
      ReferencesStable(db, d, w, s.e);
    }
  }

  lemma LedgerPart(db: Db, d: Db, locks: set<Resource>)
    requires Undisturbed(db, d, locks)
    ensures LedgerUndisturbed(db, d, locks) && db.ledger <= d.ledger && db.rules <= d.rules
    ensures forall rid :: rid in db.redemptions ==> rid in d.redemptions
  {
    hide EntryLocks, SameClaim;
  }

  lemma ReferencesStable(db: Db, d: Db, w: Work, e: Entry)
    requires db.ledger <= d.ledger && db.rules <= d.rules
    requires forall rid :: rid in db.redemptions ==> rid in d.redemptions
    requires RefersToRows(See(db, w), e)
    ensures RefersToRows(See(d, w), e)
  {
    if e.reversesId.Some? {
      var x :| x in See(db, w).ledger && x.id == e.reversesId.value;
      RowsKept(db, d, w, x);
    }
    if e.ruleId.Some? {
      var r :| r in db.rules && r.id == e.ruleId.value;
      var k :| 0 <= k < |db.rules| && db.rules[k] == r;
      assert d.rules[k] == r;
    }
  }

  lemma StmtStable(s: Stmt, db: Db, d: Db, w: Work)
    requires Can(s, See(db, w), w) && Undisturbed(db, d, Exec(s, db, w).locks)
    ensures SameRun(s, db, d, w)
  {
    hide Can, Exec, Undisturbed, SameRun;
    match s
    case InsertBalance(_) => MaterialiseStable(s, db, d, w);
    case SelectBalance(_) => LockedReadStable(s, db, d, w);
    case InsertEntry(_) => EntryStable(s, db, d, w);
    case UpdateBalance(_, _, _) => BalanceWriteStable(s, db, d, w);
    case InsertRedemption(_, _) => ClaimStable(s, db, d, w);
    case SelectRedemption(_) => RedemptionStable(s, db, d, w);
    case SetFulfilled(_, _) => RedemptionStable(s, db, d, w);
    case SetFailed(_, _) => RedemptionStable(s, db, d, w);
    case DecrementStock(_) => DecrementStable(s, db, d, w);
    case IncrementStock(_) => IncrementStable(s, db, d, w);
    case InsertDelivery(_, _) => ArrivalStable(s, db, d, w);
    case AlterDelivery(_, _) => DeliveryStable(s, db, d, w);
  }

  /** Everything a transaction has done so far would come out the same against the later database. */
  lemma {:induction false} RunStable(w: Work, log: seq<Stmt>, db: Db, d: Db)
    requires Runs(w, log, db) && Undisturbed(db, d, Run(w, log, db).locks)
    ensures Runs(w, log, d) && Run(w, log, d) == Run(w, log, db)
    decreases |log|
  {
    hide Can, Exec, Undisturbed;
    if log != [] {
      var init, s := log[..|log| - 1], log[|log| - 1];
      var before := Run(w, init, db);
      LocksOnlyGrow(s, db, before);
      FewerLocksUndisturbed(db, d, Run(w, log, db).locks, before.locks);
      RunStable(w, init, db, d);
      StmtStable(s, db, d, before);
    }
  }

  // ----- Writes stay under the locks -----

  ghost predicate RedemptionsCovered(db: Db, w: Work) {
    forall rid :: rid in w.redemptions ==>
      && RedemptionRow(rid) in w.locks
      && (rid in db.redemptions ==> SameClaim(db.redemptions[rid], w.redemptions[rid]))
      && (rid !in db.redemptions ==> ClaimKey(w.redemptions[rid].userId, w.redemptions[rid].key) in w.locks)
  }

  ghost predicate DeliveriesCovered(db: Db, w: Work) {
    forall did :: did in w.deliveries ==>
      && DeliveryRow(did) in w.locks
      && (did in db.deliveries ==> SameDelivery(db.deliveries[did], w.deliveries[did]))
      && (did !in db.deliveries ==> DeliveryKey(w.deliveries[did].partner, w.deliveries[did].key) in w.locks)
  }

  ghost predicate RewardsCovered(db: Db, w: Work) {
    forall rw :: rw in w.rewards ==>
      RewardRow(rw) in w.locks && rw in db.rewards && (w.rewards[rw].stock.Some? <==> db.rewards[rw].stock.Some?)
  }

  ghost predicate Covered(db: Db, w: Work) {
    && (forall u :: u in w.balances ==> BalanceRow(u) in w.locks)
    && (forall i :: 0 <= i < |w.entries| ==> EntryLocks(w.entries[i]) <= w.locks)
    && RewardsCovered(db, w) && RedemptionsCovered(db, w) && DeliveriesCovered(db, w)
  }

  lemma CoverLocks(db: Db, w: Work, w': Work)
    requires Covered(db, w) && w.locks <= w'.locks
    requires w' == w.(locks := w'.locks, held := w'.held, inserted := w'.inserted)
    ensures Covered(db, w')
  {
    hide EntryLocks;
  }

  lemma CoverBalance(db: Db, w: Work, w': Work, u: string, x: int)
    requires Covered(db, w) && w.locks <= w'.locks
    requires w' == w.(balances := w.balances[u := x], locks := w'.locks) && BalanceRow(u) in w'.locks
    ensures Covered(db, w')
  {
    hide EntryLocks;
  }

  lemma CoverEntry(db: Db, w: Work, w': Work, e: Entry)
    requires Covered(db, w) && w.locks <= w'.locks
    requires w' == w.(entries := w.entries + [e], locks := w'.locks, inserted := w'.inserted) && EntryLocks(e) <= w'.locks
    ensures Covered(db, w')
  {
    hide EntryLocks;
  }

  lemma CoverReward(db: Db, w: Work, w': Work, rw: string, x: Reward)
    requires Covered(db, w) && w.locks <= w'.locks
    requires w' == w.(rewards := w.rewards[rw := x], locks := w'.locks) && RewardRow(rw) in w'.locks
    requires rw in See(db, w).rewards && (x.stock.Some? <==> See(db, w).rewards[rw].stock.Some?)
    ensures Covered(db, w')
  {
    hide EntryLocks;
    assert rw in db.rewards;
  }

  lemma CoverRedemption(db: Db, w: Work, w': Work, rid: string, x: Redemption)
    requires Covered(db, w) && w.locks <= w'.locks
    requires w' == w.(redemptions := w.redemptions[rid := x], locks := w'.locks) && RedemptionRow(rid) in w'.locks
    requires if rid in See(db, w).redemptions then SameClaim(See(db, w).redemptions[rid], x)
             else ClaimKey(x.userId, x.key) in w'.locks
    ensures Covered(db, w')
  {
    hide EntryLocks;
  }

  lemma CoverDelivery(db: Db, w: Work, w': Work, did: string, x: Delivery)
    requires Covered(db, w) && w.locks <= w'.locks
    requires w' == w.(deliveries := w.deliveries[did := x], locks := w'.locks) && DeliveryRow(did) in w'.locks
    requires if did in See(db, w).deliveries then SameDelivery(See(db, w).deliveries[did], x)
             else DeliveryKey(x.partner, x.key) in w'.locks
    ensures Covered(db, w')
  {
    hide EntryLocks;
  }

  lemma LedgerExecCovered(s: Stmt, db: Db, w: Work)
    requires LedgerStmt(s) && Can(s, See(db, w), w) && Covered(db, w)
    ensures Covered(db, Exec(s, db, w))
  {
    hide Covered, See, EntryLocks, Taken, RefersToRows, RowChecks, Alter, TakeUnit, ReturnUnit, FindByKey, FindDelivery;
    var v, w' := See(db, w), Exec(s, db, w);
    match s
    case InsertBalance(u) => if u in v.balances { CoverLocks(db, w, w'); } else { CoverBalance(db, w, w', u, 0); }
    case SelectBalance(_) => CoverLocks(db, w, w');
    case InsertEntry(e) => if Taken(v, e) { CoverLocks(db, w, w'); } else { CoverEntry(db, w, w', e); }
    case UpdateBalance(u, delta, _) => if w.inserted { CoverBalance(db, w, w', u, w.held + delta); } else { CoverLocks(db, w, w'); }
    case _ =>
  }

  lemma RedemptionExecCovered(s: Stmt, db: Db, w: Work)
    requires RedemptionStmt(s) && Can(s, See(db, w), w) && Covered(db, w)
    ensures Covered(db, Exec(s, db, w))
  {
    hide Covered, See, EntryLocks, Taken, RefersToRows, RowChecks, Alter, TakeUnit, ReturnUnit, FindByKey, FindDelivery;
    var w' := Exec(s, db, w);
    match s
    case InsertRedemption(rid, row) => CoverRedemption(db, w, w', rid, row);
    case SelectRedemption(_) => CoverLocks(db, w, w');
    case SetFulfilled(rid, _) => CoverRedemption(db, w, w', rid, w'.redemptions[rid]);
    case SetFailed(rid, _) => CoverRedemption(db, w, w', rid, w'.redemptions[rid]);
    case _ =>
  }

  lemma StockExecCovered(s: Stmt, db: Db, w: Work)
    requires (s.DecrementStock? || s.IncrementStock?) && Can(s, See(db, w), w) && Covered(db, w)
    ensures Covered(db, Exec(s, db, w))
  {
    hide Covered, See, EntryLocks, Taken, RefersToRows, RowChecks, Alter, FindByKey, FindDelivery, Fulfil, MarkFailed, UserExists;
    var v, w' := See(db, w), Exec(s, db, w);
    match s
    case DecrementStock(rw) => CoverReward(db, w, w', rw, w'.rewards[rw]);
    case IncrementStock(rw) => if v.rewards[rw].stock.Some? { CoverReward(db, w, w', rw, w'.rewards[rw]); } else { CoverLocks(db, w, w'); }
    case _ =>
  }

  lemma DeliveryExecCovered(s: Stmt, db: Db, w: Work)
    requires (s.InsertDelivery? || s.AlterDelivery?) && Can(s, See(db, w), w) && Covered(db, w)
    ensures Covered(db, Exec(s, db, w))
  {
    if s.AlterDelivery? {
      AlterKeepsIdentity(See(db, w).deliveries[s.did], s.c);
    }
    hide Covered, See, EntryLocks, Taken, RefersToRows, RowChecks, Alter, FindByKey, FindDelivery, Fulfil, MarkFailed, UserExists, TakeUnit, ReturnUnit, SameDelivery;
    var w' := Exec(s, db, w);
    match s
    case InsertDelivery(did, d) => CoverDelivery(db, w, w', did, d);
    case AlterDelivery(did, _) => CoverDelivery(db, w, w', did, w'.deliveries[did]);
    case _ =>
  }

  lemma ExecCovered(s: Stmt, db: Db, w: Work)
    requires Can(s, See(db, w), w) && Covered(db, w)
    ensures Covered(db, Exec(s, db, w))
  {
    hide Covered, See, Can, Exec;
    if LedgerStmt(s) {
      LedgerExecCovered(s, db, w);
    } else if RedemptionStmt(s) {
      RedemptionExecCovered(s, db, w);
    } else if s.DecrementStock? || s.IncrementStock? {
      StockExecCovered(s, db, w);
    } else {
      DeliveryExecCovered(s, db, w);
    }
  }

  lemma {:induction false} RunCovered(log: seq<Stmt>, db: Db)
    requires Runs(NO_WORK, log, db)
    ensures Covered(db, Run(NO_WORK, log, db))
    decreases |log|
  {
    hide Can, Exec;
    if log == [] {
    } else {
      RunCovered(log[..|log| - 1], db);
      hide Covered;
      ExecCovered(log[|log| - 1], db, Run(NO_WORK, log[..|log| - 1], db));
    }
  }

  /** A commit disturbs nothing that a transaction holding other locks depends on. */
  lemma CommitUndisturbs(db: Db, w: Work, others: set<Resource>)
    requires Covered(db, w) && w.locks !! others
    ensures Undisturbed(db, See(db, w), others)
  {
    hide EntryLocks, SameClaim, SameDelivery;
    CommitKeepsIdentity(db);
    var d := See(db, w);
    forall i | |db.ledger| <= i < |d.ledger| ensures EntryLocks(d.ledger[i]) !! others {
      assert d.ledger[i] == w.entries[i - |db.ledger|];
    }
  }

  lemma CommitKeepsIdentity(db: Db)
    ensures forall rid :: rid in db.redemptions ==> SameClaim(db.redemptions[rid], db.redemptions[rid])
    ensures forall did :: did in db.deliveries ==> SameDelivery(db.deliveries[did], db.deliveries[did])
  {
  }
}
