/** When every event is fresh at the moment it is priced, REJECTED can only mean an unacceptable body. */
module Honest {
  import opened Schema
  import opened Ledger
  import opened Redeeming
  import opened Webhook
  import opened Atoms
  import opened Statements
  import opened Stability
  import opened Programs
  import opened System
  import opened Safety
  import opened Reachable
  import opened Guarantees

  /** The clock of the pricing read this action makes, if it makes one, is within the accepted window. */
  ghost predicate PricedFresh(s: Sys, act: Action) {
    act.Answer? && act.t in s.txs && s.txs[act.t].plan != [] && s.txs[act.t].plan[0].Ask?
    && s.txs[act.t].plan[0].q.AskPrice? ==>
      var q := s.txs[act.t].plan[0].q;
      q.did in s.db.deliveries && s.db.deliveries[q.did].body.Event? ==>
        Fresh(s.db.deliveries[q.did].body.occurredAt, q.now)
  }

  ghost predicate FreshRun(acts: seq<Action>)
    requires IsRun(START, acts)
  {
    acts == [] ||
    (FreshRun(acts[..|acts| - 1]) && PricedFresh(After(START, acts[..|acts| - 1]), acts[|acts| - 1]))
  }

  predicate Unacceptable(db: Db, did: string) {
    did in db.deliveries && !Acceptable(db.deliveries[did].body)
  }

  /** A step that rejects a delivery rejects one whose body is unacceptable. */
  predicate RejectsRightly(a: Atom, db: Db) {
    a.AtomMark? && a.change == Reject ==> Unacceptable(db, a.did)
  }

  predicate TxHonest(db: Db, tx: Tx) {
    && (forall i :: 0 <= i < |tx.done| ==> RejectsRightly(tx.done[i], db))
    && (forall i :: 0 <= i < |tx.plan| && tx.plan[i].Do? ==> RejectsRightly(tx.plan[i].a, db))
  }

  ghost predicate RowsHonest(db: Db) {
    forall did :: did in db.deliveries && db.deliveries[did].status == REJECTED ==> Unacceptable(db, did)
  }

  ghost predicate AllHonest(s: Sys) {
    RowsHonest(s.db) && forall t :: t in s.txs ==> TxHonest(s.db, s.txs[t])
  }

  lemma UnacceptableStable(db: Db, d: Db, did: string)
    requires Unacceptable(db, did) && Evolves(db, d)
    ensures Unacceptable(d, did)
  {
    DeliveryPersists(db, d, did);
    hide Acceptable, Evolves;
  }

  lemma TxHonestStable(db: Db, d: Db, tx: Tx)
    requires TxHonest(db, tx) && Evolves(db, d)
    ensures TxHonest(d, tx)
  {
    hide Evolves, Unacceptable;
    forall did | Unacceptable(db, did) ensures Unacceptable(d, did) {
      UnacceptableStable(db, d, did);
    }
  }

  /** The deliveries a step leaves: at most one row altered, or one new row. */
  lemma EffectOnDeliveries(a: Atom, db: Db)
    requires Succeeds(a, db)
    ensures var d := Effect(a, db).deliveries;
      match a
      case AtomArrive(did, row) => d == db.deliveries[did := row]
      case AtomMark(did, c) => did in db.deliveries && d == db.deliveries[did := Alter(db.deliveries[did], c)]
      case AtomCredit(did, _, _, _) => did in db.deliveries && d == db.deliveries[did := Alter(db.deliveries[did], Credited)]
      case _ => d == db.deliveries
  {
    match a
    case AtomReserve(rid, row, limited, eid, at) =>
      ReserveShape(db, rid, row, limited, eid, at);
    case AtomCompensate(v, reason, _, eid, at) =>
      CompensationLeavesDeliveries(db, v, reason, eid, at);
    case _ =>
  }

  lemma CompensationLeavesDeliveries(db: Db, v: Reservation, reason: string, eid: string, at: int)
    ensures Compensate(db, v, reason, eid, at).0.deliveries == db.deliveries
  {
    hide Append;
    if v.redemptionId in db.redemptions && db.redemptions[v.redemptionId].status == RESERVED {
      var m := MarkFailed(db, v.redemptionId, reason);
      var original := FindRow(m.ledger, v.entryId);
      if original.Some? {
        AppendTouchesTwoTables(m, ReversalOf(original.value), eid, at);
      }
    }
  }

  lemma EffectKeepsRowsHonest(a: Atom, db: Db)
    requires RowsHonest(db) && Succeeds(a, db) && Admissible(a, db) && RejectsRightly(a, db)
    ensures RowsHonest(Effect(a, db))
  {
    EffectOnDeliveries(a, db);
    if a.AtomArrive? {
      ArrivesReceived(a, db);
    }
    hide Effect, Succeeds, Admissible, Acceptable;
  }

  lemma ArrivesReceived(a: Atom, db: Db)
    requires Admissible(a, db) && a.AtomArrive?
    ensures a.delivery.status == RECEIVED
  {
  }

  lemma {:induction false} StepsKeepRowsHonest(done: seq<Atom>, db: Db)
    requires Valid(db) && RowsHonest(db) && DoneOk(done, db) && FulfilsReserved(done, db) && Succeed(done, db)
    requires forall i :: 0 <= i < |done| ==> RejectsRightly(done[i], db)
    ensures RowsHonest(Steps(done, db)) && Valid(Steps(done, db)) && Evolves(db, Steps(done, db))
    decreases |done|
  {
    hide Valid, Evolves, Admissible, Succeeds, Effect, RowsHonest, Unacceptable;
    if done == [] {
      EvolvesReflexive(db);
    } else {
      var init, a := done[..|done| - 1], done[|done| - 1];
      StepsKeepRowsHonest(init, db);
      var mid := Steps(init, db);
      ValidRules(mid);
      assert Admissible(a, db);
      AdmissibleStable(a, db, mid);
      FulfilOnlyFirst(done, db);
      StepKeepsValid(a, mid);
      RightlyStable(a, db, mid);
      EffectKeepsRowsHonest(a, mid);
      EvolvesTransitive(db, mid, Effect(a, mid));
    }
  }

  lemma RightlyStable(a: Atom, db: Db, d: Db)
    requires RejectsRightly(a, db) && Evolves(db, d)
    ensures RejectsRightly(a, d)
  {
    hide Evolves, Unacceptable;
    if a.AtomMark? && a.change == Reject {
      UnacceptableStable(db, d, a.did);
    }
  }

  lemma CommitKeepsHonest(s: Sys, t: nat)
    requires SysInv(s) && AllHonest(s) && Enabled(s, Commit(t))
    ensures AllHonest(Next(s, Commit(t)))
  {
    hide SysInv, Valid, Evolves, Succeed, Steps, See, RowsHonest, TxHonest, DoneOk, TxInv;
    SysValid(s);
    CommitIsAtomic(s, t);
    FulfilsAreReserved(s, t);
    TxFacts(s, t);
    DoneFacts(s.db, s.txs[t]);
    StepsKeepRowsHonest(s.txs[t].done, s.db);
    forall u | u in s.txs && u != t ensures TxHonest(Next(s, Commit(t)).db, s.txs[u]) {
      TxHonestStable(s.db, Next(s, Commit(t)).db, s.txs[u]);
    }
  }

  lemma DoneFacts(db: Db, tx: Tx)
    requires TxInv(db, tx)
    ensures DoneOk(tx.done, db)
    ensures TxHonest(db, tx) ==> forall i :: 0 <= i < |tx.done| ==> RejectsRightly(tx.done[i], db)
  {
    hide Replayable, PlanOk, DoneOk, Positioned;
  }

  /** The body a transaction reads is the committed one. */
  lemma SeenBodies(s: Sys, t: nat)
    requires SysInv(s) && t in s.txs && s.txs[t].plan != [] && s.txs[t].plan[0].Ask?
    ensures var q := s.txs[t].plan[0].q;
      q.AskBody? || q.AskPrice? ==>
        q.did in s.db.deliveries && q.did in See(s.db, s.txs[t].work).deliveries
        && See(s.db, s.txs[t].work).deliveries[q.did].body == s.db.deliveries[q.did].body
  {
    hide SysInv, Valid, Evolves, Succeed, Steps, See, Covered, Acceptable;
    AskedBetweenSteps(s, t);
    SeesSteps(s, t);
    var q := s.txs[t].plan[0].q;
    if q.AskBody? || q.AskPrice? {
      DeliveryPersists(s.db, See(s.db, s.txs[t].work), q.did);
    }
  }

  predicate ItemsHonest(items: seq<Item>, db: Db) {
    forall i :: 0 <= i < |items| && items[i].Do? ==> RejectsRightly(items[i].a, db)
  }

  lemma AnswersHonest(q: Query, v: Db, db: Db)
    requires Answerable(q, v) && (q.AskHolder? ==> RejectsRightly(q.claim, db))
    requires q.AskBody? || q.AskPrice? ==>
      q.did in db.deliveries && q.did in v.deliveries && v.deliveries[q.did].body == db.deliveries[q.did].body
    requires q.AskPrice? && db.deliveries[q.did].body.Event? ==> Fresh(db.deliveries[q.did].body.occurredAt, q.now)
    ensures ItemsHonest(NextItems(q, v), db)
  {
    hide Fresh;
  }

  lemma AnswerKeepsHonest(s: Sys, t: nat)
    requires SysInv(s) && AllHonest(s) && Enabled(s, Answer(t)) && PricedFresh(s, Answer(t))
    ensures TxHonest(s.db, Next(s, Answer(t)).txs[t])
  {
    hide SysInv, See, Acceptable, Fresh, RowsHonest, RejectsRightly, Answerable, NextItems, NextReply;
    var tx := s.txs[t];
    var q, v := tx.plan[0].q, See(s.db, tx.work);
    SeenBodies(s, t);
    assert TxHonest(s.db, tx);
    if q.AskHolder? {
      HoldersReserve(q, v, s.db);
    }
    AnswersHonest(q, v, s.db);
    ReplacedHonest(s.db, tx, NextItems(q, v), 1, NextReply(q, v, tx.reply));
  }

  lemma HoldersReserve(q: Query, v: Db, db: Db)
    requires Answerable(q, v) && q.AskHolder?
    ensures RejectsRightly(q.claim, db)
  {
  }

  lemma ReplacedHonest(db: Db, tx: Tx, items: seq<Item>, n: nat, reply: Option<Answered>)
    requires TxHonest(db, tx) && ItemsHonest(items, db) && n <= |tx.plan|
    ensures TxHonest(db, tx.(plan := items + tx.plan[n..], reply := reply))
  {
    hide RejectsRightly;
    var plan := items + tx.plan[n..];
    forall i | 0 <= i < |plan| && plan[i].Do? ensures RejectsRightly(plan[i].a, db) {
      if i >= |items| {
        assert plan[i] == tx.plan[i - |items| + n];
      }
    }
  }

  lemma MissKeepsHonest(s: Sys, t: nat)
    requires AllHonest(s) && Enabled(s, Miss(t))
    ensures TxHonest(s.db, Next(s, Miss(t)).txs[t])
  {
    hide RowsHonest, Unacceptable, HeldByOther, See;
    var tx := s.txs[t];
    assert TxHonest(s.db, tx);
  }

  lemma AdvanceKeepsHonest(s: Sys, t: nat)
    requires AllHonest(s) && Enabled(s, Advance(t))
    ensures TxHonest(s.db, Next(s, Advance(t)).txs[t])
  {
    hide RowsHonest, RejectsRightly, HeldByOther, See, Can, Exec, Program;
    assert TxHonest(s.db, s.txs[t]);
  }

  lemma {:induction false} SweepHonest(dids: seq<string>, clock: string -> int, ids: string -> string, db: Db)
    ensures ItemsHonest(SweepPlan(dids, clock, ids), db)
  {
    if dids != [] {
      SweepHonest(dids[1..], clock, ids, db);
    }
  }

  lemma OpenHonest(db: Db, plan: seq<Item>, sweep: bool)
    requires MayOpen(db, plan, sweep)
    ensures ItemsHonest(plan, db)
  {
    if sweep {
      var dids: seq<string>, clock: string -> int, ids: string -> string :|
        plan == SweepPlan(dids, clock, ids) && forall did :: did in dids ==> did in db.deliveries;
      SweepHonest(dids, clock, ids, db);
    }
  }

  lemma NewTxHonest(db: Db, plan: seq<Item>, role: Role)
    requires ItemsHonest(plan, db)
    ensures TxHonest(db, NewTx(plan, role))
  {
  }

  lemma OneTxHonest(s: Sys, act: Action, t: nat)
    requires SysInv(s) && AllHonest(s) && Enabled(s, act) && PricedFresh(s, act) && t in Next(s, act).txs
    requires !act.Commit? && !act.Change?
    ensures TxHonest(s.db, Next(s, act).txs[t])
  {
    hide SysInv, TxHonest, RowsHonest, ItemsHonest, MayOpen, Answerable, MayMiss, MayAdvance, NextItems, NextReply, MissPlan, Advanced, See;
    if act == Answer(t) {
      AnswerKeepsHonest(s, t);
    } else if act == Miss(t) {
      MissKeepsHonest(s, t);
    } else if act == Advance(t) {
      AdvanceKeepsHonest(s, t);
    } else if act.Open? && act.t == t {
      OpenHonest(s.db, act.plan, act.sweep);
      NewTxHonest(s.db, act.plan, if act.sweep then Sweep else Plain);
    } else if act.OpenFulfil? && act.t == t {
      SettlersHonest(s.db, AtomFulfil(act.rid, act.ref));
      NewTxHonest(s.db, [Do(AtomFulfil(act.rid, act.ref), 1)], Fulfilling(act.rid));
    } else if act.OpenCompensate? && act.t == t {
      var v := s.owners[act.rid].v;
      var step := AtomCompensate(v, act.reason, FindRow(s.db.ledger, v.entryId).value, act.eid, act.at);
      SettlersHonest(s.db, step);
      NewTxHonest(s.db, [Do(step, 1)], Compensating(act.rid));
    }
  }

  lemma SettlersHonest(db: Db, a: Atom)
    requires !a.AtomMark?
    ensures ItemsHonest([Do(a, 1)], db)
  {
  }

  lemma ChangeKeepsHonest(s: Sys, e: Edit)
    requires SysInv(s) && AllHonest(s) && Enabled(s, Change(e))
    ensures AllHonest(Next(s, Change(e)))
  {
    hide SysInv, Valid, Evolves, TxHonest, MayEdit, Acceptable;
    SysValid(s);
    EditKeepsValid(s, e);
    forall t | t in s.txs ensures TxHonest(Edited(s.db, e), s.txs[t]) {
      TxHonestStable(s.db, Edited(s.db, e), s.txs[t]);
    }
  }

  lemma ActionKeepsHonest(s: Sys, act: Action)
    requires SysInv(s) && AllHonest(s) && Enabled(s, act) && PricedFresh(s, act)
    ensures AllHonest(Next(s, act))
  {
    hide SysInv, TxHonest, RowsHonest, Enabled, Next, PricedFresh, Evolves;
    if act.Commit? {
      CommitKeepsHonest(s, act.t);
    } else if act.Change? {
      ChangeKeepsHonest(s, act.e);
    } else {
      ActionEvolves(s, act);
      forall t | t in Next(s, act).txs ensures TxHonest(s.db, Next(s, act).txs[t]) {
        OneTxHonest(s, act, t);
      }
    }
  }

  /** However deliveries are retried, raced, parked and replayed: as long as no event is priced too late or
      too early, the only deliveries ever marked REJECTED are the unacceptable ones. */
  lemma {:induction false} RejectedMeansUnacceptable(acts: seq<Action>)
    requires IsRun(START, acts) && FreshRun(acts)
    ensures SysInv(After(START, acts)) && AllHonest(After(START, acts))
    decreases |acts|
  {
    hide SysInv, Enabled, Next, PricedFresh, RowsHonest, TxHonest;
    if acts == [] {
      StartHolds();
      StartHonest();
    } else {
      var init := acts[..|acts| - 1];
      RejectedMeansUnacceptable(init);
      ActionKeepsHonest(After(START, init), acts[|acts| - 1]);
      ActionKeeps(After(START, init), acts[|acts| - 1]);
    }
  }

  lemma StartHonest()
    ensures AllHonest(START)
  {
  }
}
