/** The few shapes an open transaction can have, and what a replayed request is answered with. */
module Shapes {
  import opened Schema
  import opened Earning
  import opened Ledger
  import opened Redeeming
  import opened Webhook
  import opened Atoms
  import opened Statements
  import opened Stability
  import opened Programs
  import opened System
  import opened Safety
  import opened Reachable

  predicate DeliveryAtom(a: Atom) {
    a.AtomMark? || a.AtomCredit?
  }

  predicate DeliveryItem(i: Item) {
    if i.Do? then DeliveryAtom(i.a) else i.q.AskBody? || i.q.AskPrice?
  }

  /** What may follow once the delivery `did` has been touched. */
  predicate Follows(did: string, i: Item) {
    if i.Do? then DeliveryAtom(i.a) && i.a.did == did
    else i.q.AskPrice? && i.q.did == did
  }

  /** One step or one question from the start; a credit only ever follows a touch. */
  predicate Waiting(tx: Tx) {
    && tx.done == [] && |tx.plan| <= 1
    && (tx.plan != [] ==> if tx.plan[0].Do? then !tx.plan[0].a.AtomCredit? else !tx.plan[0].q.AskPrice?)
  }

  predicate Touching(tx: Tx) {
    && tx.done == [] && |tx.plan| == 2
    && tx.plan[0].Do? && tx.plan[0].a.AtomMark? && tx.plan[0].a.change.Touch?
    && tx.plan[1].Ask? && Follows(tx.plan[0].a.did, tx.plan[1])
  }

  predicate Touched(tx: Tx) {
    && |tx.done| == 1 && tx.done[0].AtomMark?
    && |tx.plan| == 1 && Follows(tx.done[0].did, tx.plan[0])
  }

  predicate Finished(tx: Tx) {
    && tx.plan == []
    && (|tx.done| <= 1
        || (|tx.done| == 2 && tx.done[0].AtomMark? && DeliveryAtom(tx.done[1]) && tx.done[1].did == tx.done[0].did))
  }

  predicate Sweeping(tx: Tx) {
    && (forall i :: 0 <= i < |tx.done| ==> DeliveryAtom(tx.done[i]))
    && (forall i :: 0 <= i < |tx.plan| ==> DeliveryItem(tx.plan[i]))
  }

  predicate Shaped(tx: Tx) {
    if tx.role.Sweep? then Sweeping(tx)
    else Waiting(tx) || Touching(tx) || Touched(tx) || Finished(tx)
  }

  predicate OnlyReplays(tx: Tx, rid: string) {
    (tx.done == [] && (tx.plan == [] || (|tx.plan| == 1 && tx.plan[0].Do? && tx.plan[0].a == AtomReplay(rid))))
    || (tx.done == [AtomReplay(rid)] && tx.plan == [])
  }

  /** A replayed request names a committed redemption of its own user and key, read at its snapshots, and does
      nothing else. Once it has read the row under its lock, the row stays what it read. */
  predicate ReplyOk(db: Db, tx: Tx) {
    tx.reply.Some? ==>
      var r := tx.reply.value;
      && r.rid in db.redemptions && HoldsClaim(db.redemptions[r.rid], r.userId, r.key)
      && LaterRedemption(r.row, db.redemptions[r.rid])
      && OnlyReplays(tx, r.rid)
      && (tx.done != [] ==> r.row == db.redemptions[r.rid])
  }

  ghost predicate ShapesOk(s: Sys) {
    forall t :: t in s.txs ==> Shaped(s.txs[t]) && ReplyOk(s.db, s.txs[t])
  }

  lemma {:induction false} SweepShaped(dids: seq<string>, clock: string -> int, ids: string -> string)
    ensures forall i :: 0 <= i < |SweepPlan(dids, clock, ids)| ==> DeliveryItem(SweepPlan(dids, clock, ids)[i])
  {
    if dids != [] {
      SweepShaped(dids[1..], clock, ids);
    }
  }

  lemma OpenShaped(db: Db, plan: seq<Item>, sweep: bool)
    requires MayOpen(db, plan, sweep)
    ensures Shaped(NewTx(plan, if sweep then Sweep else Plain))
  {
    if sweep {
      var dids: seq<string>, clock: string -> int, ids: string -> string :|
        plan == SweepPlan(dids, clock, ids) && forall did :: did in dids ==> did in db.deliveries;
      SweepShaped(dids, clock, ids);
    }
  }

  lemma AnswerShaped(tx: Tx, v: Db, reply: Option<Answered>)
    requires Shaped(tx) && tx.plan != [] && tx.plan[0].Ask? && Answerable(tx.plan[0].q, v)
    ensures Shaped(tx.(plan := NextItems(tx.plan[0].q, v) + tx.plan[1..], reply := reply))
  {
    hide Fresh, Acceptable;
    var plan := NextItems(tx.plan[0].q, v) + tx.plan[1..];
    if tx.role.Sweep? {
      assert DeliveryItem(tx.plan[0]);
      forall i | 0 <= i < |plan| ensures DeliveryItem(plan[i]) {
        if i >= |NextItems(tx.plan[0].q, v)| {
          assert plan[i] == tx.plan[i - |NextItems(tx.plan[0].q, v)| + 1];
        }
      }
    } else {
      assert tx.plan[1..] == [];
      assert plan == NextItems(tx.plan[0].q, v);
    }
  }

  lemma MissShaped(s: Sys, t: nat)
    requires t in s.txs && MayMiss(s, t) && Shaped(s.txs[t])
    ensures Shaped(s.txs[t].(plan := MissPlan(s, t)))
  {
    hide HeldByOther, See;
    var tx := s.txs[t];
    if tx.role.Sweep? {
      assert DeliveryItem(tx.plan[0]);
    }
  }

  lemma AdvanceShaped(tx: Tx, db: Db)
    requires Shaped(tx) && AtStatement(tx) && Can(NextStmt(tx), See(db, tx.work), tx.work)
    ensures Shaped(Advanced(db, tx))
  {
    hide Can, Exec, See, Program;
  }

  /** Before its first step a transaction has written nothing, so it sees what is committed. */
  lemma WaitingSeesCommitted(db: Db, tx: Tx)
    requires TxInv(db, tx) && tx.k == 0 && tx.done == []
    ensures See(db, tx.work) == db
  {
    hide PlanOk, DoneOk, See;
    NothingIssuedYet(tx);
    RunNothing(NO_WORK, db);
    SeeNothing(db);
  }

  lemma SweepsAskDeliveries(tx: Tx)
    requires Shaped(tx) && tx.plan != [] && tx.plan[0].Ask?
    ensures !tx.plan[0].q.AskBody? && !tx.plan[0].q.AskPrice? ==> Waiting(tx) && !tx.role.Sweep?
  {
    if tx.role.Sweep? {
      assert DeliveryItem(tx.plan[0]);
    }
  }

  lemma AnswerReplies(db: Db, tx: Tx)
    requires TxInv(db, tx) && Shaped(tx) && ReplyOk(db, tx)
    requires tx.k == 0 && tx.plan != [] && tx.plan[0].Ask? && Answerable(tx.plan[0].q, See(db, tx.work))
    ensures var v := See(db, tx.work);
      ReplyOk(db, tx.(plan := NextItems(tx.plan[0].q, v) + tx.plan[1..], reply := NextReply(tx.plan[0].q, v, tx.reply)))
  {
    hide TxInv, See, Acceptable, Fresh;
    if tx.plan[0].q.AskPrior? || tx.plan[0].q.AskHolder? {
      SweepsAskDeliveries(tx);
      assert tx.plan[1..] == [];
      WaitingSeesCommitted(db, tx);
    }
  }

  lemma ReplyStable(db: Db, d: Db, tx: Tx)
    requires ReplyOk(db, tx) && Evolves(db, d)
    requires tx.reply.Some? && tx.done != [] ==> tx.reply.value.rid in d.redemptions ==>
      d.redemptions[tx.reply.value.rid] == db.redemptions[tx.reply.value.rid]
    ensures ReplyOk(d, tx)
  {
    hide Evolves;
    if tx.reply.Some? {
      RedemptionPersists(db, d, tx.reply.value.rid);
    }
  }

  lemma AdvanceReplies(tx: Tx, db: Db)
    requires TxInv(db, tx) && ReplyOk(db, tx) && AtStatement(tx) && Can(NextStmt(tx), See(db, tx.work), tx.work)
    ensures ReplyOk(db, Advanced(db, tx))
  {
    hide Can, Exec, See, TxInv;
    if tx.reply.Some? && tx.k == 0 {
      WaitingSeesCommitted(db, tx);
      if tx.plan[0].a.AtomReplay? {
        LockedReadSees(db, tx.work, tx.plan[0].a.rid);
      }
    }
  }

  lemma LockedReadSees(db: Db, w: Work, rid: string)
    requires Can(SelectRedemption(rid), See(db, w), w)
    ensures See(db, Exec(SelectRedemption(rid), db, w)) == See(db, w)
  {
  }

  /** The row a replayed request has read is locked until the request ends. */
  lemma ReplayLocksItsRow(db: Db, tx: Tx)
    requires TxInv(db, tx) && ReplyOk(db, tx) && tx.reply.Some? && tx.done != []
    ensures RedemptionRow(tx.reply.value.rid) in tx.work.locks
  {
    hide PlanOk, DoneOk, Can, Exec;
    var read := SelectRedemption(tx.reply.value.rid);
    assert tx.done[..0] == [] && Program(tx.done[0]) == [read];
    assert Flat(tx.done) == Flat([]) + [read] && Flat([]) == [] && Current(tx) == [];
    assert Log(tx) == [read];
    RunOne(NO_WORK, read, db);
    LockedRead(db, tx.reply.value.rid);
  }

  lemma LockedRead(db: Db, rid: string)
    requires Can(SelectRedemption(rid), See(db, NO_WORK), NO_WORK)
    ensures RedemptionRow(rid) in Exec(SelectRedemption(rid), db, NO_WORK).locks
  {
  }

  /** So no other transaction's commit changes it. */
  lemma LockedRowStays(s: Sys, act: Action, t: nat)
    requires SysInv(s) && ShapesOk(s) && Enabled(s, act) && t in s.txs && t in Next(s, act).txs
    requires s.txs[t].reply.Some? && s.txs[t].done != []
    ensures var rid := s.txs[t].reply.value.rid;
      rid in s.db.redemptions && (rid in Next(s, act).db.redemptions ==> Next(s, act).db.redemptions[rid] == s.db.redemptions[rid])
  {
    hide SysInv, TxInv, RoleOk, PlanOk, DoneOk, Positioned, Enabled, Next, ShapesOk, Shaped, ReplyOk;
    TxShapes(s, t);
    TxFacts(s, t);
    ReplayLocksItsRow(s.db, s.txs[t]);
    if act.Commit? {
      CommitLeavesRow(s, act.t, t, s.txs[t].reply.value.rid);
    } else {
      OthersLeaveRedemptions(s, act);
    }
  }

  lemma CommitLeavesRow(s: Sys, u: nat, t: nat, rid: string)
    requires SysInv(s) && Enabled(s, Commit(u)) && t in s.txs && t in Next(s, Commit(u)).txs
    requires RedemptionRow(rid) in s.txs[t].work.locks && rid in s.db.redemptions
    ensures rid in Next(s, Commit(u)).db.redemptions && Next(s, Commit(u)).db.redemptions[rid] == s.db.redemptions[rid]
  {
    hide SysInv, TxInv, RoleOk, PlanOk, DoneOk, Positioned;
    TxFacts(s, u);
    WritesAreLocked(s.db, s.txs[u]);
  }

  lemma OthersLeaveRedemptions(s: Sys, act: Action)
    requires Enabled(s, act) && !act.Commit?
    ensures Next(s, act).db.redemptions == s.db.redemptions
  {
    hide MayOpen, Answerable, MayMiss, MayAdvance, MayEdit, NextItems, NextReply, MissPlan, Advanced, See;
  }

  lemma WritesAreLocked(db: Db, tx: Tx)
    requires TxInv(db, tx)
    ensures forall rid :: rid in tx.work.redemptions ==> RedemptionRow(rid) in tx.work.locks
  {
    hide PlanOk, DoneOk, Runs, Run, RewardsCovered, DeliveriesCovered, EntryLocks;
    RunCovered(Log(tx), db);
  }

  lemma OneTxShaped(s: Sys, act: Action, t: nat)
    requires SysInv(s) && ShapesOk(s) && Enabled(s, act) && t in Next(s, act).txs
    requires act in {Answer(t), Advance(t), Miss(t)}
    ensures Shaped(Next(s, act).txs[t]) && ReplyOk(s.db, Next(s, act).txs[t])
  {
    hide SysInv, TxInv, RoleOk, PlanOk, DoneOk, Answerable, NextItems, NextReply, MissPlan, Can, See, Advanced;
    TxFacts(s, t);
    var tx := s.txs[t];
    match act
    case Answer(_) =>
      AskedBetweenSteps(s, t);
      AnswerShaped(tx, See(s.db, tx.work), NextReply(tx.plan[0].q, See(s.db, tx.work), tx.reply));
      AnswerReplies(s.db, tx);
    case Advance(_) =>
      AdvanceShaped(tx, s.db);
      AdvanceReplies(tx, s.db);
    case Miss(_) => MissShaped(s, t);
  }

  lemma ActionKeepsShapes(s: Sys, act: Action)
    requires SysInv(s) && ShapesOk(s) && Enabled(s, act)
    ensures ShapesOk(Next(s, act))
  {
    ActionEvolves(s, act);
    var s' := Next(s, act);
    forall t | t in s'.txs ensures Shaped(s'.txs[t]) && ReplyOk(s'.db, s'.txs[t]) {
      OtherTx(s, act, t);
    }
  }

  lemma OtherTx(s: Sys, act: Action, t: nat)
    requires SysInv(s) && ShapesOk(s) && Enabled(s, act) && t in Next(s, act).txs
    ensures Shaped(Next(s, act).txs[t]) && ReplyOk(Next(s, act).db, Next(s, act).txs[t])
  {
    hide SysInv, Evolves, Shaped, ReplyOk, ShapesOk, MayOpen, Answerable, MayMiss, MayAdvance, MayEdit, NextItems, NextReply, MissPlan, Advanced, See, Edited;
    ActionEvolves(s, act);
    if act in {Answer(t), Advance(t), Miss(t)} {
      OneTxShaped(s, act, t);
    } else if act.Open? && act.t == t {
      OpenShaped(s.db, act.plan, act.sweep);
      NewReplies(s.db, act.plan, if act.sweep then Sweep else Plain);
    } else if act.OpenFulfil? && act.t == t {
      SettlerShaped(AtomFulfil(act.rid, act.ref), Fulfilling(act.rid));
      NewReplies(s.db, [Do(AtomFulfil(act.rid, act.ref), 1)], Fulfilling(act.rid));
    } else if act.OpenCompensate? && act.t == t {
      var v := s.owners[act.rid].v;
      var step := AtomCompensate(v, act.reason, FindRow(s.db.ledger, v.entryId).value, act.eid, act.at);
      SettlerShaped(step, Compensating(act.rid));
      NewReplies(s.db, [Do(step, 1)], Compensating(act.rid));
    } else {
      if s.txs[t].reply.Some? && s.txs[t].done != [] {
        LockedRowStays(s, act, t);
      }
      TxShapes(s, t);
      ReplyStable(s.db, Next(s, act).db, s.txs[t]);
    }
  }

  lemma TxShapes(s: Sys, t: nat)
    requires ShapesOk(s) && t in s.txs
    ensures Shaped(s.txs[t]) && ReplyOk(s.db, s.txs[t])
    ensures s.txs[t].reply.Some? ==> s.txs[t].reply.value.rid in s.db.redemptions
  {
    hide Shaped, OnlyReplays;
  }

  lemma NewReplies(db: Db, plan: seq<Item>, role: Role)
    ensures ReplyOk(db, NewTx(plan, role))
  {
  }

  lemma SettlerShaped(a: Atom, role: Role)
    requires !role.Sweep? && !a.AtomCredit?
    ensures Shaped(NewTx([Do(a, 1)], role))
  {
  }

  lemma {:induction false} RunKeepsShapes(s: Sys, acts: seq<Action>)
    requires SysInv(s) && ShapesOk(s) && IsRun(s, acts)
    ensures ShapesOk(After(s, acts))
    decreases |acts|
  {
    hide SysInv, ShapesOk, Enabled, Next;
    if acts != [] {
      var init := acts[..|acts| - 1];
      RunKeeps(s, init);
      RunKeepsShapes(s, init);
      ActionKeepsShapes(After(s, init), acts[|acts| - 1]);
    }
  }
}
