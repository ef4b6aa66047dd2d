/** The invariant of the concurrent system, kept by every action, and what follows for every run. */
module Reachable {
  import opened Schema
  import opened Earning
  import opened Ledger
  import opened Redeeming
  import opened Webhook
  import opened Atoms
  import opened Statements
  import opened Stability
  import opened Programs
  import opened System
  import opened Safety

  // ----- Roles -----

  predicate Fits(a: Atom, role: Role) {
    && (a.AtomFulfil? ==> role == Fulfilling(a.rid))
    && (a.AtomCompensate? ==> role == Compensating(a.v.redemptionId))
  }

  /** Only a transaction opened to settle a redemption settles it; the one that marks it FULFILLED does nothing else. */
  predicate RoleOk(tx: Tx) {
    && (forall i :: 0 <= i < |tx.done| ==> Fits(tx.done[i], tx.role))
    && (forall i :: 0 <= i < |tx.plan| && tx.plan[i].Do? ==> Fits(tx.plan[i].a, tx.role))
    && (tx.role.Fulfilling? ==>
          && |tx.done| + |tx.plan| == 1
          && (forall i :: 0 <= i < |tx.done| ==> tx.done[i].AtomFulfil?)
          && (forall i :: 0 <= i < |tx.plan| ==> tx.plan[i].Do? && tx.plan[i].a.AtomFulfil?))
  }

  /** The owner knows the debit it would have to reverse. */
  ghost predicate OwnerOk(db: Db, rid: string, o: Owner) {
    && rid in db.redemptions && o.v.redemptionId == rid && o.v.rewardId == db.redemptions[rid].rewardId
    && (exists e :: e in db.ledger && e.id == o.v.entryId && DebitFor(e, rid, db.redemptions[rid]))
    && (!o.failing ==> db.redemptions[rid].status == RESERVED)
  }

  ghost predicate OwnersOk(s: Sys) {
    forall rid :: rid in s.owners ==> OwnerOk(s.db, rid, s.owners[rid])
  }

  /** A redemption being marked FULFILLED is RESERVED, has no owner left, and nobody else is settling it. */
  ghost predicate FulfilmentsOk(s: Sys) {
    forall t :: t in s.txs && s.txs[t].role.Fulfilling? ==>
      var rid := s.txs[t].role.rid;
      && rid in s.db.redemptions && s.db.redemptions[rid].status == RESERVED && rid !in s.owners
      && forall u :: u in s.txs && u != t ==> s.txs[u].role != Fulfilling(rid) && s.txs[u].role != Compensating(rid)
  }

  /** A redemption being compensated can no longer be fulfilled by its owner. */
  ghost predicate CompensationsOk(s: Sys) {
    forall t :: t in s.txs && s.txs[t].role.Compensating? ==>
      s.txs[t].role.rid in s.db.redemptions
      && (s.txs[t].role.rid in s.owners ==> s.owners[s.txs[t].role.rid].failing)
  }

  ghost predicate TxsOk(s: Sys) {
    forall t :: t in s.txs ==> TxInv(s.db, s.txs[t]) && RoleOk(s.txs[t])
  }

  ghost predicate LocksDisjoint(s: Sys) {
    forall t, u :: t in s.txs && u in s.txs && t != u ==> s.txs[t].work.locks !! s.txs[u].work.locks
  }

  ghost predicate SysInv(s: Sys) {
    Valid(s.db) && TxsOk(s) && LocksDisjoint(s) && OwnersOk(s) && FulfilmentsOk(s) && CompensationsOk(s)
  }

  // ----- Actions that leave the database alone -----

  /** Putting one transaction in place of another, or of none. */
  lemma ReplaceTx(s: Sys, s': Sys, t: nat, tx: Tx)
    requires SysInv(s) && s' == s.(txs := s.txs[t := tx])
    requires TxInv(s.db, tx) && RoleOk(tx)
    requires forall u :: u in s.txs && u != t ==> tx.work.locks !! s.txs[u].work.locks
    requires t in s.txs ==> tx.role == s.txs[t].role
    requires t !in s.txs ==> !tx.role.Fulfilling? && !tx.role.Compensating?
    ensures SysInv(s')
  {
    hide Valid, TxInv, RoleOk, OwnerOk;
  }

  lemma RemoveTx(s: Sys, s': Sys, t: nat)
    requires SysInv(s) && s' == s.(txs := s.txs - {t})
    ensures SysInv(s')
  {
    hide Valid, TxInv, RoleOk, OwnerOk;
  }

  lemma RemoveOwner(s: Sys, s': Sys, rid: string)
    requires SysInv(s) && s' == s.(owners := s.owners - {rid})
    ensures SysInv(s')
  {
    hide Valid, TxInv, RoleOk, OwnerOk;
  }

  lemma NewTxOk(plan: seq<Item>, role: Role, db: Db)
    requires PlanOk(plan, db)
    ensures TxInv(db, NewTx(plan, role))
  {
    hide PlanOk, Run, Runs;
    var tx := NewTx(plan, role);
    NothingIssuedYet(tx);
    RunNothing(NO_WORK, db);
    if plan != [] && plan[0].Do? {
      assert Program(plan[0].a) != [];
    }
  }

  lemma {:induction false} SweepPlanOk(dids: seq<string>, clock: string -> int, ids: string -> string, db: Db)
    requires forall did :: did in dids ==> did in db.deliveries
    ensures PlanOk(SweepPlan(dids, clock, ids), db)
    ensures forall i :: 0 <= i < |SweepPlan(dids, clock, ids)| ==>
      SweepPlan(dids, clock, ids)[i].Do? ==> SweepPlan(dids, clock, ids)[i].a.AtomMark?
  {
    if dids != [] {
      SweepPlanOk(dids[1..], clock, ids, db);
    }
  }

  lemma MayOpenOk(db: Db, plan: seq<Item>, sweep: bool)
    requires MayOpen(db, plan, sweep)
    ensures PlanOk(plan, db)
    ensures forall i :: 0 <= i < |plan| && plan[i].Do? ==> !plan[i].a.AtomFulfil? && !plan[i].a.AtomCompensate?
  {
    if sweep {
      var dids: seq<string>, clock: string -> int, ids: string -> string :|
        plan == SweepPlan(dids, clock, ids) && forall did :: did in dids ==> did in db.deliveries;
      SweepPlanOk(dids, clock, ids, db);
    }
  }

  lemma OpenKeeps(s: Sys, t: nat, plan: seq<Item>, sweep: bool)
    requires SysInv(s) && Enabled(s, Open(t, plan, sweep))
    ensures SysInv(Next(s, Open(t, plan, sweep)))
  {
    hide SysInv, PlanOk, MayOpen, TxInv;
    MayOpenOk(s.db, plan, sweep);
    var tx := NewTx(plan, if sweep then Sweep else Plain);
    NewTxOk(plan, tx.role, s.db);
    ReplaceTx(s, Next(s, Open(t, plan, sweep)), t, tx);
  }

  // ----- Answering -----

  /** Between steps, what a transaction sees is the committed database with its finished steps applied. */
  lemma SeesSteps(s: Sys, t: nat)
    requires SysInv(s) && t in s.txs && s.txs[t].k == 0
    ensures var tx := s.txs[t];
      && Succeed(tx.done, s.db) && See(s.db, tx.work) == Steps(tx.done, s.db)
      && Valid(See(s.db, tx.work)) && Evolves(s.db, See(s.db, tx.work))
      && Covered(s.db, tx.work)
  {
    hide Valid, Evolves, Admissible, Succeeds, Run, Runs, Covered, Succeed, ItemOk, OwnerOk, See;
    var tx := s.txs[t];
    assert TxInv(s.db, tx) && RoleOk(tx);
    NothingIssuedYet(tx);
    FulfilsAreReserved(s, t);
    DoneIsSteps(tx.done, s.db);
    RunCovered(Flat(tx.done), s.db);
  }

  lemma FulfilsAreReserved(s: Sys, t: nat)
    requires SysInv(s) && t in s.txs
    ensures FulfilsReserved(s.txs[t].done, s.db)
  {
    hide Valid, OwnerOk, TxInv;
    assert RoleOk(s.txs[t]);
  }

  lemma AnswersOk(q: Query, db: Db, w: Work)
    requires Askable(q, db) && Answerable(q, See(db, w))
    requires Valid(See(db, w)) && Evolves(db, See(db, w)) && Covered(db, w)
    ensures PlanOk(NextItems(q, See(db, w)), db)
    ensures forall i :: 0 <= i < |NextItems(q, See(db, w))| && NextItems(q, See(db, w))[i].Do? ==>
      !NextItems(q, See(db, w))[i].a.AtomFulfil? && !NextItems(q, See(db, w))[i].a.AtomCompensate?
  {
    hide Valid, Evolves, Covered, See, ReserveWith;
    var v := See(db, w);
    match q
    case AskPrior(_, _, _, _) =>
    case AskReward(input, _, _, _) => RewardKnown(db, w, input.rewardId);
    case AskHolder(_, _) =>
    case AskBody(did, _, _) => DeliveryPersists(db, v, did);
    case AskPrice(did, _, _) => PriceKnown(db, w, did);
  }

  lemma RewardKnown(db: Db, w: Work, rw: string)
    requires Valid(See(db, w)) && Evolves(db, See(db, w)) && Covered(db, w) && rw in See(db, w).rewards
    ensures rw in db.rewards && See(db, w).rewards[rw].cost > 0
    ensures See(db, w).rewards[rw].stock.Some? <==> db.rewards[rw].stock.Some?
  {
    hide LedgerState, DeliveryInv, RulesInv, TagsSound, ClaimsUnique, AllAccounted, LaterRedemption, EntryLocks, Units;
  }

  lemma PriceKnown(db: Db, w: Work, did: string)
    requires Evolves(db, See(db, w)) && did in db.deliveries
    ensures var v := See(db, w);
      && v.users == db.users && v.rules == db.rules && did in v.deliveries
      && v.deliveries[did].body == db.deliveries[did].body && v.deliveries[did].partner == db.deliveries[did].partner
  {
    hide LaterRedemption, StockConserved;
  }

  predicate NoSettling(items: seq<Item>) {
    forall i :: 0 <= i < |items| && items[i].Do? ==> !items[i].a.AtomFulfil? && !items[i].a.AtomCompensate?
  }

  /** Items put in front of what remains of a plan. */
  lemma RoleReplans(tx: Tx, items: seq<Item>, n: nat, reply: Option<Answered>)
    requires RoleOk(tx) && !tx.role.Fulfilling? && n <= |tx.plan|
    requires NoSettling(items)
    ensures RoleOk(tx.(plan := items + tx.plan[n..], reply := reply))
  {
    var plan := items + tx.plan[n..];
    forall i | 0 <= i < |plan| && plan[i].Do? ensures Fits(plan[i].a, tx.role) {
      if i >= |items| {
        assert plan[i] == tx.plan[i - |items| + n];
      }
    }
  }

  /** Changing what a transaction will do next, between two of its steps. */
  lemma ReplanSys(s: Sys, t: nat, items: seq<Item>, n: nat, reply: Option<Answered>)
    requires SysInv(s) && t in s.txs && s.txs[t].k == 0 && !s.txs[t].role.Fulfilling?
    requires n <= |s.txs[t].plan| && PlanOk(items, s.db) && NoSettling(items)
    ensures SysInv(s.(txs := s.txs[t := s.txs[t].(plan := items + s.txs[t].plan[n..], reply := reply)]))
  {
    TxFacts(s, t);
    hide SysInv, PlanOk, TxInv, RoleOk;
    var tx := s.txs[t];
    PlanJoins(items, tx.plan, n, s.db);
    RoleReplans(tx, items, n, reply);
    ReplanKeeps(tx, items + tx.plan[n..], reply, s.db);
    ReplaceTx(s, s.(txs := s.txs[t := tx.(plan := items + tx.plan[n..], reply := reply)]), t,
              tx.(plan := items + tx.plan[n..], reply := reply));
  }

  lemma TxFacts(s: Sys, t: nat)
    requires SysInv(s) && t in s.txs
    ensures TxInv(s.db, s.txs[t]) && RoleOk(s.txs[t]) && PlanOk(s.txs[t].plan, s.db) && DoneOk(s.txs[t].done, s.db)
    ensures Positioned(s.txs[t])
    ensures forall u :: u in s.txs && u != t ==> s.txs[t].work.locks !! s.txs[u].work.locks
  {
    hide Valid, OwnersOk, FulfilmentsOk, CompensationsOk, Replayable, RoleOk, ItemOk, Admissible;
  }

  lemma AnswerReplans(s: Sys, t: nat)
    requires Enabled(s, Answer(t))
    ensures t in s.txs && s.txs[t].plan != [] && s.txs[t].plan[0].Ask?
    ensures var tx := s.txs[t];
      var v := See(s.db, tx.work);
      && Answerable(tx.plan[0].q, v)
      && Next(s, Answer(t)) == s.(txs := s.txs[t := tx.(plan := NextItems(tx.plan[0].q, v) + tx.plan[1..],
                                                        reply := NextReply(tx.plan[0].q, v, tx.reply))])
  {
    hide See, NextItems, NextReply, Answerable;
  }

  lemma AnswerKeeps(s: Sys, t: nat)
    requires SysInv(s) && Enabled(s, Answer(t))
    ensures SysInv(Next(s, Answer(t)))
  {
    hide SysInv, PlanOk, Valid, Evolves, Covered, See, Askable, Succeed, Steps, NextItems, NextReply, Answerable, Enabled, Next;
    AnswerReplans(s, t);
    AskedBetweenSteps(s, t);
    SeesSteps(s, t);
    var tx := s.txs[t];
    var v := See(s.db, tx.work);
    AnswersOk(tx.plan[0].q, s.db, tx.work);
    ReplanSys(s, t, NextItems(tx.plan[0].q, v), 1, NextReply(tx.plan[0].q, v, tx.reply));
  }

  lemma AskedBetweenSteps(s: Sys, t: nat)
    requires SysInv(s) && t in s.txs && s.txs[t].plan != [] && s.txs[t].plan[0].Ask?
    ensures s.txs[t].k == 0 && Askable(s.txs[t].plan[0].q, s.db) && !s.txs[t].role.Fulfilling?
  {
    hide SysInv, Admissible;
    TxFacts(s, t);
    assert ItemOk(s.txs[t].plan[0], s.db);
  }

  lemma PlanJoins(items: seq<Item>, plan: seq<Item>, n: nat, db: Db)
    requires PlanOk(items, db) && PlanOk(plan, db) && n <= |plan|
    ensures PlanOk(items + plan[n..], db)
  {
    hide ItemOk;
    forall i | 0 <= i < |items + plan[n..]| ensures ItemOk((items + plan[n..])[i], db) {
      if i >= |items| {
        assert (items + plan[n..])[i] == plan[i - |items| + n];
      }
    }
  }

  // ----- A conditional statement that found no row -----

  /** What replaces the conditional statement, and how much of the plan it replaces. */
  ghost function MissItems(s: Sys, t: nat): seq<Item>
    requires t in s.txs && MayMiss(s, t)
  {
    var tx := s.txs[t];
    match tx.plan[0].a
    case AtomReserve(_, _, _, _, _) => [Ask(AskHolder(tx.plan[0].a, tx.plan[0].attempt))]
    case AtomArrive(_, d) => [Do(AtomMark(FindDelivery(s.db, d.partner, d.key).value, Bump), 1)]
    case _ => []
  }

  function MissCount(plan: seq<Item>): nat {
    if |plan| >= 2 && plan[0].Do? && plan[0].a.AtomMark? then 2 else 1
  }

  lemma MissPlanSplits(s: Sys, t: nat)
    requires t in s.txs && MayMiss(s, t)
    ensures var n := MissCount(s.txs[t].plan);
      n <= |s.txs[t].plan| && MissPlan(s, t) == MissItems(s, t) + s.txs[t].plan[n..] && NoSettling(MissItems(s, t))
  {
    hide HeldByOther, See, FindByKey, FindDelivery;
    var tx := s.txs[t];
    assert [] + tx.plan[1..] == tx.plan[1..];
    assert |tx.plan| >= 2 ==> [] + tx.plan[2..] == tx.plan[2..];
  }

  lemma MissItemsOk(s: Sys, t: nat)
    requires t in s.txs && MayMiss(s, t) && Admissible(s.txs[t].plan[0].a, s.db)
    ensures PlanOk(MissItems(s, t), s.db)
  {
    hide HeldByOther, See, Admissible;
    var tx := s.txs[t];
    match tx.plan[0].a
    case AtomReserve(_, _, _, _, _) => OneItemOk(Ask(AskHolder(tx.plan[0].a, tx.plan[0].attempt)), s.db);
    case AtomArrive(_, d) => BumpOk(s.db, d);
    case _ => NoItemsOk(s.db);
  }

  lemma MissKeeps(s: Sys, t: nat)
    requires SysInv(s) && Enabled(s, Miss(t))
    ensures SysInv(Next(s, Miss(t)))
  {
    hide SysInv, PlanOk, Admissible, RoleOk, MissItems, MissPlan, NoSettling;
    TxFacts(s, t);
    var tx := s.txs[t];
    MissIsNotFulfil(tx);
    HeadAdmissible(tx, s.db);
    MissItemsOk(s, t);
    MissPlanSplits(s, t);
    ReplanSys(s, t, MissItems(s, t), MissCount(tx.plan), tx.reply);
  }

  lemma MissIsNotFulfil(tx: Tx)
    requires RoleOk(tx) && tx.plan != [] && tx.plan[0].Do? && !tx.plan[0].a.AtomFulfil?
    ensures !tx.role.Fulfilling?
  {
  }

  lemma NoItemsOk(db: Db)
    ensures PlanOk([], db)
  {
  }

  lemma OneItemOk(i: Item, db: Db)
    requires ItemOk(i, db)
    ensures PlanOk([i], db)
  {
  }

  lemma BumpOk(db: Db, d: Delivery)
    requires FindDelivery(db, d.partner, d.key).Some?
    ensures PlanOk([Do(AtomMark(FindDelivery(db, d.partner, d.key).value, Bump), 1)], db)
  {
  }

  // ----- A statement runs -----

  lemma AdvancedRole(tx: Tx, db: Db)
    requires RoleOk(tx) && AtStatement(tx) && Can(NextStmt(tx), See(db, tx.work), tx.work)
    ensures RoleOk(Advanced(db, tx)) && Advanced(db, tx).role == tx.role
  {
    hide Can, Exec, See, Program;
  }

  lemma AdvancedLocks(tx: Tx, db: Db)
    requires AtStatement(tx) && Can(NextStmt(tx), See(db, tx.work), tx.work)
    ensures Advanced(db, tx).work.locks == tx.work.locks + Locks(NextStmt(tx), See(db, tx.work), tx.work)
  {
    hide Can, Locks, See, Program;
  }

  lemma AdvanceStepKeeps(s: Sys, t: nat)
    requires SysInv(s) && Enabled(s, Advance(t))
    ensures SysInv(Next(s, Advance(t)))
  {
    hide SysInv, PlanOk, DoneOk, Positioned, TxInv, RoleOk, Can, See, Locks, Advanced, Program;
    TxFacts(s, t);
    var tx := s.txs[t];
    AdvanceKeeps(tx, s.db);
    AdvancedRole(tx, s.db);
    AdvancedLocks(tx, s.db);
    ReplaceTx(s, Next(s, Advance(t)), t, Advanced(s.db, tx));
  }

  // ----- Commits -----

  predicate Touches(a: Atom, rid: string) {
    (a.AtomFulfil? && a.rid == rid) || (a.AtomCompensate? && a.v.redemptionId == rid)
  }

  lemma ReserveLeavesOthers(db: Db, a: Atom, rid: string)
    requires a.AtomReserve? && Succeeds(a, db) && rid in db.redemptions
    ensures rid in Effect(a, db).redemptions && Effect(a, db).redemptions[rid] == db.redemptions[rid]
  {
    hide ReserveWith;
    ReserveShape(db, a.rid, a.row, a.limited, a.eid, a.at);
  }

  lemma CompensateLeavesOthers(db: Db, v: Reservation, reason: string, eid: string, at: int, rid: string)
    requires rid in db.redemptions && v.redemptionId != rid
    ensures var d := Compensate(db, v, reason, eid, at).0;
      rid in d.redemptions && d.redemptions[rid] == db.redemptions[rid]
  {
    hide Append;
    if v.redemptionId in db.redemptions {
      var m := MarkFailed(db, v.redemptionId, reason);
      var o := FindRow(m.ledger, v.entryId);
      if o.Some? {
        AppendTouchesTwoTables(m, ReversalOf(o.value), eid, at);
      }
    }
  }

  lemma EffectLeavesAlone(a: Atom, db: Db, rid: string)
    requires Succeeds(a, db) && rid in db.redemptions && !Touches(a, rid)
    ensures rid in Effect(a, db).redemptions && Effect(a, db).redemptions[rid] == db.redemptions[rid]
  {
    hide Append, ReserveWith, Compensate;
    match a
    case AtomAppend(input, id, at) => AppendTouchesTwoTables(db, input, id, at);
    case AtomReserve(_, _, _, _, _) => ReserveLeavesOthers(db, a, rid);
    case AtomCompensate(v, reason, _, eid, at) => CompensateLeavesOthers(db, v, reason, eid, at, rid);
    case AtomCredit(_, input, eid, at) => AppendTouchesTwoTables(db, input, eid, at);
    case _ =>
  }

  lemma {:induction false} StepsLeaveAlone(done: seq<Atom>, db: Db, rid: string)
    requires Succeed(done, db) && rid in db.redemptions
    requires forall i :: 0 <= i < |done| ==> !Touches(done[i], rid)
    ensures rid in Steps(done, db).redemptions && Steps(done, db).redemptions[rid] == db.redemptions[rid]
    decreases |done|
  {
    hide Succeeds, Effect;
    if done != [] {
      StepsLeaveAlone(done[..|done| - 1], db, rid);
      EffectLeavesAlone(done[|done| - 1], Steps(done[..|done| - 1], db), rid);
    }
  }

  /** A commit changes the committed redemptions only where its transaction's role allows. */
  lemma CommitLeavesAlone(s: Sys, t: nat, rid: string)
    requires SysInv(s) && Enabled(s, Commit(t)) && rid in s.db.redemptions
    requires s.txs[t].role != Fulfilling(rid) && s.txs[t].role != Compensating(rid)
    ensures var d := See(s.db, s.txs[t].work);
      rid in d.redemptions && d.redemptions[rid] == s.db.redemptions[rid]
  {
    hide SysInv, Succeed, Steps, See, Valid, Evolves, Covered, PlanOk, DoneOk, TxInv;
    TxFacts(s, t);
    CommitIsBetweenSteps(s, t);
    SeesSteps(s, t);
    StepsLeaveAlone(s.txs[t].done, s.db, rid);
  }

  lemma CommitIsBetweenSteps(s: Sys, t: nat)
    requires SysInv(s) && Enabled(s, Commit(t))
    ensures s.txs[t].k == 0
  {
    hide SysInv, TxInv, RoleOk, PlanOk, DoneOk;
    TxFacts(s, t);
  }

  /** COMMIT is atomic: at that moment the committed database changes by the transaction's steps, applied
      in order to what was committed just before, however its statements were interleaved with others'. */
  lemma CommitIsAtomic(s: Sys, t: nat)
    requires SysInv(s) && Enabled(s, Commit(t))
    ensures Succeed(s.txs[t].done, s.db)
    ensures Next(s, Commit(t)).db == Steps(s.txs[t].done, s.db)
    ensures Valid(Next(s, Commit(t)).db) && Evolves(s.db, Next(s, Commit(t)).db)
  {
    hide SysInv, Succeed, Steps, See, Valid, Evolves, Covered;
    CommitIsBetweenSteps(s, t);
    SeesSteps(s, t);
  }

  lemma CommitUndisturbsOthers(s: Sys, t: nat, u: nat)
    requires SysInv(s) && Enabled(s, Commit(t)) && u in s.txs && u != t
    ensures Undisturbed(s.db, See(s.db, s.txs[t].work), s.txs[u].work.locks)
  {
    hide SysInv, Succeed, Steps, See, Valid, Evolves, Covered, TxInv, RoleOk, PlanOk, DoneOk, Undisturbed;
    CommitIsBetweenSteps(s, t);
    SeesSteps(s, t);
    TxFacts(s, t);
    CommitUndisturbs(s.db, s.txs[t].work, s.txs[u].work.locks);
  }

  lemma CommitKeepsTxs(s: Sys, t: nat)
    requires SysInv(s) && Enabled(s, Commit(t))
    ensures TxsOk(Next(s, Commit(t))) && LocksDisjoint(Next(s, Commit(t)))
  {
    hide SysInv, Succeed, Steps, See, Valid, Evolves, Undisturbed, TxInv, RoleOk, PlanOk, DoneOk, NoClash;
    CommitIsAtomic(s, t);
    var s' := Next(s, Commit(t));
    ValidRules(s'.db);
    forall u | u in s'.txs ensures TxInv(s'.db, s'.txs[u]) && RoleOk(s'.txs[u]) {
      TxFacts(s, u);
      CommitUndisturbsOthers(s, t, u);
      TxStable(s.db, s'.db, s.txs[u]);
    }
    forall u, v | u in s'.txs && v in s'.txs && u != v ensures s'.txs[u].work.locks !! s'.txs[v].work.locks {
      TxFacts(s, u);
    }
  }

  lemma OwnerStable(db: Db, d: Db, rid: string, o: Owner)
    requires OwnerOk(db, rid, o) && Evolves(db, d)
    requires o.failing || (rid in d.redemptions && d.redemptions[rid].status == db.redemptions[rid].status)
    ensures OwnerOk(d, rid, o)
  {
    hide SameDelivery, StockConserved;
    var e :| e in db.ledger && e.id == o.v.entryId && DebitFor(e, rid, db.redemptions[rid]);
    var i :| 0 <= i < |db.ledger| && db.ledger[i] == e;
    assert d.ledger[i] == e;
  }

  /** The caller that committed a reservation owns a RESERVED redemption whose debit it knows. */
  lemma NewOwnerOk(s: Sys, t: nat)
    requires SysInv(s) && Enabled(s, Commit(t)) && |s.txs[t].done| == 1 && s.txs[t].done[0].AtomReserve?
    ensures var a := s.txs[t].done[0];
      && a.rid !in s.db.redemptions
      && OwnerOk(Next(s, Commit(t)).db, a.rid, Owner(Reservation(a.rid, a.eid, a.row.rewardId), false))
  {
    hide SysInv, See, Valid, Evolves, TxInv, RoleOk, PlanOk, DoneOk, Next, Succeed, Steps, OwnerOk, Admissible, Succeeds, Effect;
    CommitIsAtomic(s, t);
    TxFacts(s, t);
    FirstDoneOk(s.txs[t].done, s.db);
    OneStep(s.txs[t].done, s.db);
    ReservedOwnerOk(s.db, s.txs[t].done[0]);
  }

  lemma FirstDoneOk(done: seq<Atom>, db: Db)
    requires DoneOk(done, db) && done != []
    ensures Admissible(done[0], db)
  {
  }

  lemma OneStep(done: seq<Atom>, db: Db)
    requires |done| == 1 && Succeed(done, db)
    ensures Succeeds(done[0], db) && Steps(done, db) == Effect(done[0], db)
  {
    assert done[..0] == [];
  }

  lemma ReservedOwnerOk(db: Db, a: Atom)
    requires a.AtomReserve? && Succeeds(a, db) && Admissible(a, db)
    ensures a.rid !in db.redemptions
    ensures OwnerOk(Effect(a, db), a.rid, Owner(Reservation(a.rid, a.eid, a.row.rewardId), false))
  {
    hide ReserveWith;
    ReserveShape(db, a.rid, a.row, a.limited, a.eid, a.at);
    var d := Effect(a, db);
    var e := NewRow(DebitInput(a.rid, a.row), a.eid, a.at);
    assert d.ledger[|db.ledger|] == e;
  }

  lemma OwnerTxFacts(s: Sys, t: nat)
    requires SysInv(s) && t in s.txs
    ensures s.txs[t].role.Fulfilling? ==> s.txs[t].role.rid in s.db.redemptions && s.txs[t].role.rid !in s.owners
    ensures s.txs[t].role.Compensating? ==>
      s.txs[t].role.rid in s.db.redemptions && (s.txs[t].role.rid in s.owners ==> s.owners[s.txs[t].role.rid].failing)
  {
    hide Valid, TxInv, RoleOk, OwnerOk;
  }

  lemma OwnedOk(s: Sys, rid: string)
    requires SysInv(s) && rid in s.owners
    ensures OwnerOk(s.db, rid, s.owners[rid])
  {
    hide Valid, TxInv, RoleOk, OwnerOk;
  }

  lemma CommitKeepsOwners(s: Sys, t: nat)
    requires SysInv(s) && Enabled(s, Commit(t))
    ensures OwnersOk(Next(s, Commit(t)))
  {
    hide SysInv, See, Valid, Evolves, TxInv, RoleOk, PlanOk, DoneOk, Succeed, Steps, OwnerOk;
    var s' := Next(s, Commit(t));
    CommitIsAtomic(s, t);
    OwnerTxFacts(s, t);
    forall rid | rid in s'.owners ensures OwnerOk(s'.db, rid, s'.owners[rid]) {
      if |s.txs[t].done| == 1 && s.txs[t].done[0].AtomReserve? && rid == s.txs[t].done[0].rid {
        NewOwnerOk(s, t);
      } else {
        OwnedOk(s, rid);
        OwnedRedemptionExists(s, rid);
        if !s.owners[rid].failing {
          CommitLeavesAlone(s, t, rid);
        }
        OwnerStable(s.db, s'.db, rid, s.owners[rid]);
      }
    }
  }

  lemma OwnedRedemptionExists(s: Sys, rid: string)
    requires SysInv(s) && rid in s.owners
    ensures rid in s.db.redemptions
  {
    hide SysInv;
    OwnedOk(s, rid);
  }

  lemma SettlingFacts(s: Sys, t: nat, u: nat)
    requires SysInv(s) && t in s.txs && u in s.txs && u != t && s.txs[t].role.Fulfilling?
    ensures s.db.redemptions[s.txs[t].role.rid].status == RESERVED
    ensures s.txs[u].role != Fulfilling(s.txs[t].role.rid) && s.txs[u].role != Compensating(s.txs[t].role.rid)
  {
    hide Valid, TxInv, RoleOk, OwnerOk;
  }

  lemma CommitKeepsSettlements(s: Sys, t: nat)
    requires SysInv(s) && Enabled(s, Commit(t))
    ensures FulfilmentsOk(Next(s, Commit(t))) && CompensationsOk(Next(s, Commit(t)))
  {
    hide SysInv, See, Valid, Evolves, TxInv, RoleOk, PlanOk, DoneOk, Succeed, Steps, OwnerOk;
    var s' := Next(s, Commit(t));
    CommitIsAtomic(s, t);
    if |s.txs[t].done| == 1 && s.txs[t].done[0].AtomReserve? {
      NewOwnerOk(s, t);
    }
    forall u | u in s'.txs && s'.txs[u].role.Fulfilling?
      ensures var rid := s'.txs[u].role.rid;
        && rid in s'.db.redemptions && s'.db.redemptions[rid].status == RESERVED && rid !in s'.owners
        && forall v :: v in s'.txs && v != u ==> s'.txs[v].role != Fulfilling(rid) && s'.txs[v].role != Compensating(rid)
    {
      var rid := s'.txs[u].role.rid;
      OwnerTxFacts(s, u);
      SettlingFacts(s, u, t);
      CommitLeavesAlone(s, t, rid);
      forall v | v in s'.txs && v != u ensures s'.txs[v].role != Fulfilling(rid) && s'.txs[v].role != Compensating(rid) {
        SettlingFacts(s, u, v);
      }
    }
    forall u | u in s'.txs && s'.txs[u].role.Compensating?
      ensures s'.txs[u].role.rid in s'.db.redemptions
      ensures s'.txs[u].role.rid in s'.owners ==> s'.owners[s'.txs[u].role.rid].failing
    {
      OwnerTxFacts(s, u);
      RedemptionPersists(s.db, s'.db, s'.txs[u].role.rid);
    }
  }

  lemma RedemptionPersists(db: Db, d: Db, rid: string)
    requires Evolves(db, d) && rid in db.redemptions
    ensures rid in d.redemptions && LaterRedemption(db.redemptions[rid], d.redemptions[rid])
  {
    hide StockConserved, SameDelivery, LaterRedemption;
  }

  lemma CommitKeeps(s: Sys, t: nat)
    requires SysInv(s) && Enabled(s, Commit(t))
    ensures SysInv(Next(s, Commit(t)))
  {
    CommitIsAtomic(s, t);
    CommitKeepsTxs(s, t);
    CommitKeepsOwners(s, t);
    CommitKeepsSettlements(s, t);
    hide Valid, TxsOk, LocksDisjoint, OwnersOk, FulfilmentsOk, CompensationsOk, See, Evolves, Succeed, Steps;
  }

  // ----- Settling a redemption -----

  lemma SettlerTxOk(a: Atom, role: Role, db: Db)
    requires Admissible(a, db) && Fits(a, role) && (role.Fulfilling? ==> a.AtomFulfil?)
    ensures TxInv(db, NewTx([Do(a, 1)], role)) && RoleOk(NewTx([Do(a, 1)], role))
  {
    hide Admissible, TxInv;
    assert ItemOk(Do(a, 1), db);
    OneItemOk(Do(a, 1), db);
    NewTxOk([Do(a, 1)], role, db);
  }

  lemma OpenFulfilKeeps(s: Sys, t: nat, rid: string, ref: string)
    requires SysInv(s) && Enabled(s, OpenFulfil(t, rid, ref))
    ensures SysInv(Next(s, OpenFulfil(t, rid, ref)))
  {
    hide Valid, TxInv, RoleOk, OwnerOk;
    OwnedRedemptionExists(s, rid);
    OwnedIsReserved(s, rid);
    SettlerTxOk(AtomFulfil(rid, ref), Fulfilling(rid), s.db);
    NobodySettlesOwned(s, rid);
  }

  lemma OwnedIsReserved(s: Sys, rid: string)
    requires SysInv(s) && rid in s.owners && !s.owners[rid].failing
    ensures rid in s.db.redemptions && s.db.redemptions[rid].status == RESERVED
  {
    hide SysInv;
    OwnedOk(s, rid);
  }

  /** While a redemption has an owner that has not failed, nobody is settling it. */
  lemma NobodySettlesOwned(s: Sys, rid: string)
    requires SysInv(s) && rid in s.owners
    ensures forall t :: t in s.txs ==> s.txs[t].role != Fulfilling(rid)
    ensures !s.owners[rid].failing ==> forall t :: t in s.txs ==> s.txs[t].role != Compensating(rid)
  {
    hide SysInv;
    forall t | t in s.txs ensures s.txs[t].role != Fulfilling(rid) && (!s.owners[rid].failing ==> s.txs[t].role != Compensating(rid)) {
      OwnerTxFacts(s, t);
    }
  }

  /** The debit an owner would reverse is the row its id finds. */
  lemma OwnedDebit(s: Sys, rid: string)
    requires SysInv(s) && rid in s.owners
    ensures var o := FindRow(s.db.ledger, s.owners[rid].v.entryId);
      o.Some? && o.value in s.db.ledger && o.value.id == s.owners[rid].v.entryId && DebitFor(o.value, rid, s.db.redemptions[rid])
  {
    OwnedOk(s, rid);
    hide TxsOk, LocksDisjoint, OwnersOk, FulfilmentsOk, CompensationsOk, RedemptionInv, DeliveryInv, RulesInv, LedgerState;
    var e :| e in s.db.ledger && e.id == s.owners[rid].v.entryId && DebitFor(e, rid, s.db.redemptions[rid]);
    LedgerOfState(s.db);
    RowById(s.db.ledger, e);
  }

  lemma OwnerMayFail(s: Sys, rid: string)
    requires SysInv(s) && rid in s.owners
    ensures OwnerOk(s.db, rid, Owner(s.owners[rid].v, true))
    ensures s.owners[rid].v.redemptionId == rid && rid in s.db.redemptions
    ensures s.owners[rid].v.rewardId == s.db.redemptions[rid].rewardId
  {
    hide SysInv;
    OwnedOk(s, rid);
  }

  lemma OpenCompensateKeeps(s: Sys, t: nat, rid: string, reason: string, eid: string, at: int)
    requires SysInv(s) && Enabled(s, OpenCompensate(t, rid, reason, eid, at))
    ensures SysInv(Next(s, OpenCompensate(t, rid, reason, eid, at)))
  {
    hide Valid, TxInv, RoleOk, OwnerOk;
    OwnedDebit(s, rid);
    OwnerMayFail(s, rid);
    var v := s.owners[rid].v;
    SettlerTxOk(AtomCompensate(v, reason, FindRow(s.db.ledger, v.entryId).value, eid, at), Compensating(rid), s.db);
    NobodySettlesOwned(s, rid);
  }

  // ----- Edits of the catalogue, the rules and the users -----

  lemma RewardEditUndisturbs(db: Db, rw: string, r: Reward, locks: set<Resource>)
    requires RewardRow(rw) !in locks
    requires rw in db.rewards ==> (r.stock.Some? <==> db.rewards[rw].stock.Some?)
    ensures Undisturbed(db, db.(rewards := db.rewards[rw := r]), locks)
  {
    CommitKeepsIdentity(db);
    hide SameClaim, SameDelivery, EntryLocks;
  }

  lemma OtherEditUndisturbs(db: Db, d: Db, locks: set<Resource>)
    requires d == db.(users := d.users, rules := d.rules) && db.rules <= d.rules
    requires forall ref :: ref in db.users ==> ref in d.users && d.users[ref] == db.users[ref]
    ensures Undisturbed(db, d, locks)
  {
    CommitKeepsIdentity(db);
    hide SameClaim, SameDelivery, EntryLocks;
  }

  lemma EditUndisturbs(s: Sys, e: Edit, t: nat)
    requires MayEdit(s, e) && t in s.txs
    ensures Undisturbed(s.db, Edited(s.db, e), s.txs[t].work.locks)
  {
    hide Undisturbed, RulesInv;
    var locks := s.txs[t].work.locks;
    match e
    case AddReward(rw, r) => RewardEditUndisturbs(s.db, rw, r, locks);
    case EditReward(rw, name, cost, active) =>
      RewardEditUndisturbs(s.db, rw, s.db.rewards[rw].(name := name, cost := cost, active := active), locks);
    case _ => OtherEditUndisturbs(s.db, Edited(s.db, e), locks);
  }

  lemma EditKeepsValid(s: Sys, e: Edit)
    requires Valid(s.db) && MayEdit(s, e)
    ensures Valid(Edited(s.db, e)) && Evolves(s.db, Edited(s.db, e))
  {
    hide LedgerState, RedemptionInv, DeliveryInv, StockConserved, RulesInv;
    var d := Edited(s.db, e);
    EditKeepsLedger(s, e);
    EditKeepsRedemptions(s, e);
    EditKeepsDeliveries(s, e);
  }

  lemma EditKeepsLedger(s: Sys, e: Edit)
    requires LedgerState(s.db) && MayEdit(s, e)
    ensures LedgerState(Edited(s.db, e))
  {
    var d := Edited(s.db, e);
    assert forall u :: Balance(d, u) == Balance(s.db, u);
    forall u | UserExists(s.db, u) ensures UserExists(d, u) {
      var ref :| ref in s.db.users && s.db.users[ref] == u;
      assert d.users[ref] == u;
    }
    hide LedgerInv;
  }

  lemma EditKeepsRedemptions(s: Sys, e: Edit)
    requires RedemptionInv(s.db) && MayEdit(s, e)
    ensures RedemptionInv(Edited(s.db, e)) && StockConserved(s.db, Edited(s.db, e))
  {
    hide Accounted, RulesInv;
    var d := Edited(s.db, e);
    assert TagsSound(d) && AllAccounted(d);
    assert ClaimsUnique(d);
  }

  lemma EditKeepsDeliveries(s: Sys, e: Edit)
    requires DeliveryInv(s.db) && RulesInv(s.db.rules) && MayEdit(s, e)
    ensures DeliveryInv(Edited(s.db, e)) && RulesInv(Edited(s.db, e).rules)
  {
    hide RulesInv, NoClash, EarnsExplained, ProcessedCredited, KeysResolved, DeliveriesUnique;
    var d := Edited(s.db, e);
    RulesDoNotClash(d);
    SameDeliveriesTable(s.db, d);
    GrowthKeepsCredits(s.db, d);
  }

  lemma SameDeliveriesTable(db: Db, d: Db)
    requires d.deliveries == db.deliveries && KeysResolved(db) && DeliveriesUnique(db)
    ensures KeysResolved(d) && DeliveriesUnique(d)
  {
  }

  lemma EditKeeps(s: Sys, e: Edit)
    requires SysInv(s) && Enabled(s, Change(e))
    ensures SysInv(Next(s, Change(e)))
  {
    hide Valid, Evolves, OwnerOk, TxInv, RoleOk, Undisturbed, Edited, NoClash, MayEdit;
    var s' := Next(s, Change(e));
    EditKeepsValid(s, e);
    ValidRules(s'.db);
    forall t | t in s'.txs ensures TxInv(s'.db, s'.txs[t]) {
      EditUndisturbs(s, e, t);
      TxStable(s.db, s'.db, s.txs[t]);
    }
    SameRedemptionsTable(s, e);
    forall rid | rid in s'.owners ensures OwnerOk(s'.db, rid, s'.owners[rid]) {
      OwnedOk(s, rid);
      OwnedRedemptionExists(s, rid);
      OwnerStable(s.db, s'.db, rid, s.owners[rid]);
    }
  }

  lemma SameRedemptionsTable(s: Sys, e: Edit)
    ensures Edited(s.db, e).redemptions == s.db.redemptions
  {
  }

  lemma CrashKeeps(s: Sys)
    requires SysInv(s)
    ensures SysInv(Next(s, Crash))
  {
    hide SysInv, MayOpen, Answerable, MayAdvance, MayMiss, MayEdit;
    NothingOpen(s, Next(s, Crash));
  }

  lemma NothingOpen(s: Sys, s': Sys)
    requires SysInv(s) && s' == Sys(s.db, map[], map[])
    ensures SysInv(s')
  {
    hide Valid, TxInv, RoleOk, OwnerOk;
  }

  // ----- Every action, every run -----

  lemma ActionKeeps(s: Sys, act: Action)
    requires SysInv(s) && Enabled(s, act)
    ensures SysInv(Next(s, act)) && Evolves(s.db, Next(s, act).db)
  {
    ActionEvolves(s, act);
    hide SysInv, Enabled, Next, Evolves;
    match act
    case Open(t, plan, sweep) => OpenKeeps(s, t, plan, sweep);
    case Answer(t) => AnswerKeeps(s, t);
    case Advance(t) => AdvanceStepKeeps(s, t);
    case Miss(t) => MissKeeps(s, t);
    case Commit(t) => CommitKeeps(s, t);
    case Rollback(t) => RollbackKeeps(s, t);
    case OpenFulfil(t, rid, ref) => OpenFulfilKeeps(s, t, rid, ref);
    case OpenCompensate(t, rid, reason, eid, at) => OpenCompensateKeeps(s, t, rid, reason, eid, at);
    case Abandon(rid) => AbandonKeeps(s, rid);
    case Crash => CrashKeeps(s);
    case Change(e) => EditKeeps(s, e);
  }

  lemma RollbackKeeps(s: Sys, t: nat)
    requires SysInv(s) && Enabled(s, Rollback(t))
    ensures SysInv(Next(s, Rollback(t)))
  {
    hide SysInv;
    RemoveTx(s, Next(s, Rollback(t)), t);
  }

  lemma AbandonKeeps(s: Sys, rid: string)
    requires SysInv(s) && Enabled(s, Abandon(rid))
    ensures SysInv(Next(s, Abandon(rid)))
  {
    hide SysInv;
    RemoveOwner(s, Next(s, Abandon(rid)), rid);
  }

  /** Only a commit or an edit changes the committed database. */
  lemma ActionEvolves(s: Sys, act: Action)
    requires SysInv(s) && Enabled(s, act)
    ensures Evolves(s.db, Next(s, act).db)
    ensures !act.Commit? && !act.Change? ==> Next(s, act).db == s.db
  {
    hide SysInv, Evolves, Succeed, Steps, Edited, MayOpen, Answerable, MayAdvance, MayMiss, MayEdit, See;
    if act.Commit? {
      CommitIsAtomic(s, act.t);
    } else if act.Change? {
      SysValid(s);
      EditKeepsValid(s, act.e);
    } else {
      EvolvesReflexive(s.db);
    }
  }

  lemma SysValid(s: Sys)
    requires SysInv(s)
    ensures Valid(s.db)
  {
    hide Valid, TxsOk, LocksDisjoint, OwnersOk, FulfilmentsOk, CompensationsOk;
  }

  /** A run from a state: each action enabled where it is taken. */
  ghost predicate IsRun(s: Sys, acts: seq<Action>)
    decreases |acts|, 0
  {
    acts == [] || (IsRun(s, acts[..|acts| - 1]) && Enabled(After(s, acts[..|acts| - 1]), acts[|acts| - 1]))
  }

  ghost function After(s: Sys, acts: seq<Action>): Sys
    requires IsRun(s, acts)
    decreases |acts|, 1
  {
    if acts == [] then s else Next(After(s, acts[..|acts| - 1]), acts[|acts| - 1])
  }

  lemma {:induction false} RunKeeps(s: Sys, acts: seq<Action>)
    requires SysInv(s) && IsRun(s, acts)
    ensures SysInv(After(s, acts)) && Evolves(s.db, After(s, acts).db)
    decreases |acts|
  {
    hide SysInv, Evolves, Enabled, Next;
    if acts == [] {
      EvolvesReflexive(s.db);
    } else {
      var init := acts[..|acts| - 1];
      RunKeeps(s, init);
      ActionKeeps(After(s, init), acts[|acts| - 1]);
      EvolvesTransitive(s.db, After(s, init).db, After(s, acts).db);
    }
  }

  lemma StartHolds()
    ensures SysInv(START)
  {
    hide Valid;
    EmptyIsValid();
  }
}
