/** A parked delivery can be found by what its event says: processing fills in its columns before it can park it. */
module Filed {
  import opened Schema
  import opened Ledger
  import opened Redeeming
  import opened Webhook
  import opened Atoms
  import opened Statements
  import opened Stability
  import opened Programs
  import opened System
  import opened Safety
  import opened Reachable
  import opened Guarantees
  import opened Honest

  /** The two columns a backfill filters by are those of the delivery's own event. */
  predicate Columned(d: Delivery) {
    Acceptable(d.body) && d.userRef == Some(d.body.userRef) && d.activityType == Some(d.body.activityType)
  }

  ghost predicate RowsFiled(db: Db) {
    forall did :: did in db.deliveries && db.deliveries[did].status == UNMATCHED ==> Columned(db.deliveries[did])
  }

  predicate Fills(a: Atom, did: string) {
    a.AtomMark? && a.did == did && a.change.Touch?
  }

  predicate Parks(a: Atom) {
    a.AtomMark? && a.change.Park?
  }

  /** A step that fills in columns takes them from the delivery's own event. */
  predicate FillsOwn(a: Atom, db: Db) {
    a.AtomMark? && a.change.Touch? ==>
      && a.did in db.deliveries && Acceptable(db.deliveries[a.did].body)
      && a.change.userRef == db.deliveries[a.did].body.userRef
      && a.change.activityType == db.deliveries[a.did].body.activityType
  }

  predicate JustFilled(done: seq<Atom>, did: string) {
    done != [] && Fills(done[|done| - 1], did)
  }

  predicate DoneFills(done: seq<Atom>, db: Db) {
    forall i :: 0 <= i < |done| ==>
      FillsOwn(done[i], db) && (Parks(done[i]) ==> JustFilled(done[..i], done[i].did))
  }

  /** The step right before the i-th item to come fills in the columns of this delivery. */
  predicate Preceded(done: seq<Atom>, plan: seq<Item>, i: nat, did: string)
    requires i < |plan|
  {
    if i == 0 then JustFilled(done, did) else plan[i - 1].Do? && Fills(plan[i - 1].a, did)
  }

  predicate ItemFiled(done: seq<Atom>, plan: seq<Item>, i: nat, db: Db)
    requires i < |plan|
  {
    match plan[i]
    case Do(a, _) =>
      && FillsOwn(a, db)
      && (Parks(a) ==> Preceded(done, plan, i, a.did))
      && (a.AtomMark? && a.change == Reclaim ==> i + 1 < |plan| && plan[i + 1].Ask? && plan[i + 1].q.AskBody?)
    case Ask(q) => q.AskPrice? ==> Preceded(done, plan, i, q.did)
  }

  predicate PlanFiled(done: seq<Atom>, plan: seq<Item>, db: Db) {
    forall i :: 0 <= i < |plan| ==> ItemFiled(done, plan, i, db)
  }

  predicate TxFiled(db: Db, tx: Tx) {
    DoneFills(tx.done, db) && PlanFiled(tx.done, tx.plan, db)
  }

  ghost predicate AllFiled(s: Sys) {
    RowsFiled(s.db) && forall t :: t in s.txs ==> TxFiled(s.db, s.txs[t])
  }

  // ----- Commits -----

  lemma FillsOwnStable(a: Atom, db: Db, d: Db)
    requires FillsOwn(a, db) && Evolves(db, d)
    ensures FillsOwn(a, d)
  {
    hide Evolves, Acceptable;
    if a.AtomMark? && a.change.Touch? {
      DeliveryPersists(db, d, a.did);
    }
  }

  lemma TxFiledStable(db: Db, d: Db, tx: Tx)
    requires TxFiled(db, tx) && Evolves(db, d)
    ensures TxFiled(d, tx)
  {
    hide Evolves, FillsOwn, Fills, JustFilled, Preceded;
    forall a | FillsOwn(a, db) ensures FillsOwn(a, d) {
      FillsOwnStable(a, db, d);
    }
    forall i | 0 <= i < |tx.plan| ensures ItemFiled(tx.done, tx.plan, i, d) {
      assert ItemFiled(tx.done, tx.plan, i, db);
    }
  }

  lemma AlterKeepsColumns(d: Delivery, c: Change)
    requires c.Touch? ==> Acceptable(d.body) && c.userRef == d.body.userRef && c.activityType == d.body.activityType
    ensures Columned(d) || c.Touch? ==> Columned(Alter(d, c))
    ensures Alter(d, c).status == UNMATCHED ==> d.status == UNMATCHED || c.Park?
  {
    hide Acceptable;
  }

  /** One step keeps parked rows filed, and leaves filled in the row it fills in. */
  lemma EffectKeepsFiled(a: Atom, db: Db)
    requires RowsFiled(db) && Succeeds(a, db) && Admissible(a, db) && FillsOwn(a, db)
    requires Parks(a) && a.did in db.deliveries ==> Columned(db.deliveries[a.did])
    ensures RowsFiled(Effect(a, db))
    ensures forall did :: did in Effect(a, db).deliveries && Fills(a, did) ==> Columned(Effect(a, db).deliveries[did])
  {
    EffectOnDeliveries(a, db);
    if a.AtomArrive? {
      ArrivesReceived(a, db);
    } else if a.AtomMark? {
      AlterKeepsColumns(db.deliveries[a.did], a.change);
    }
    hide Effect, Succeeds, Admissible, Acceptable, Columned;
  }

  lemma {:induction false} StepsKeepRowsFiled(done: seq<Atom>, db: Db)
    requires Valid(db) && RowsFiled(db) && DoneOk(done, db) && FulfilsReserved(done, db) && Succeed(done, db)
    requires DoneFills(done, db)
    ensures RowsFiled(Steps(done, db)) && Valid(Steps(done, db)) && Evolves(db, Steps(done, db))
    ensures forall did :: did in Steps(done, db).deliveries && JustFilled(done, did) ==> Columned(Steps(done, db).deliveries[did])
    decreases |done|
  {
    hide Valid, Evolves, Admissible, Succeeds, Effect, RowsFiled, Fills, Parks, FillsOwn, Columned;
    if done == [] {
      EvolvesReflexive(db);
    } else {
      var init, a := done[..|done| - 1], done[|done| - 1];
      InitFills(done, db);
      StepsKeepRowsFiled(init, db);
      var mid := Steps(init, db);
      ValidRules(mid);
      assert Admissible(a, db);
      AdmissibleStable(a, db, mid);
      FulfilOnlyFirst(done, db);
      StepKeepsValid(a, mid);
      FillsOwnStable(a, db, mid);
      EffectKeepsFiled(a, mid);
      EvolvesTransitive(db, mid, Effect(a, mid));
    }
  }

  lemma InitFills(done: seq<Atom>, db: Db)
    requires DoneFills(done, db) && done != []
    ensures var init, a := done[..|done| - 1], done[|done| - 1];
      DoneFills(init, db) && FillsOwn(a, db) && (Parks(a) ==> JustFilled(init, a.did))
  {
    hide FillsOwn, Fills;
    var init := done[..|done| - 1];
    forall i | 0 <= i < |init| ensures FillsOwn(init[i], db) && (Parks(init[i]) ==> JustFilled(init[..i], init[i].did)) {
      assert init[i] == done[i] && init[..i] == done[..i];
    }
  }

  lemma CommitKeepsFiled(s: Sys, t: nat)
    requires SysInv(s) && AllFiled(s) && Enabled(s, Commit(t))
    ensures AllFiled(Next(s, Commit(t)))
  {
    hide SysInv, Valid, Evolves, Succeed, Steps, See, RowsFiled, DoneFills, PlanFiled, DoneOk, TxInv;
    SysValid(s);
    CommitIsAtomic(s, t);
    FulfilsAreReserved(s, t);
    TxFacts(s, t);
    DoneFacts(s.db, s.txs[t]);
    assert TxFiled(s.db, s.txs[t]);
    StepsKeepRowsFiled(s.txs[t].done, s.db);
    hide TxFiled;
    forall u | u in s.txs && u != t ensures TxFiled(Next(s, Commit(t)).db, s.txs[u]) {
      TxFiledStable(s.db, Next(s, Commit(t)).db, s.txs[u]);
    }
  }

  // ----- The other actions -----

  /** Answering the read a transaction stands at. */
  lemma AnswersFiled(q: Query, v: Db, db: Db, done: seq<Atom>, rest: seq<Item>)
    requires Answerable(q, v)
    requires q.AskBody? || q.AskPrice? ==>
      q.did in db.deliveries && q.did in v.deliveries && v.deliveries[q.did].body == db.deliveries[q.did].body
    requires PlanFiled(done, [Ask(q)] + rest, db)
    ensures PlanFiled(done, NextItems(q, v) + rest, db)
  {
    hide Fresh, Acceptable, FindByKey, FillsOwn;
    var items := NextItems(q, v);
    var before, after := [Ask(q)] + rest, items + rest;
    assert ItemFiled(done, before, 0, db);
    NewItemsFiled(q, v, db, done, rest);
    forall i | |items| <= i < |after| ensures ItemFiled(done, after, i, db) {
      RestFiled(done, done, [Ask(q)], items, rest, i - |items|, db);
    }
  }

  lemma NewItemsFiled(q: Query, v: Db, db: Db, done: seq<Atom>, rest: seq<Item>)
    requires Answerable(q, v)
    requires q.AskBody? || q.AskPrice? ==>
      q.did in db.deliveries && q.did in v.deliveries && v.deliveries[q.did].body == db.deliveries[q.did].body
    requires q.AskPrice? ==> JustFilled(done, q.did)
    ensures var items := NextItems(q, v); forall i :: 0 <= i < |items| ==> ItemFiled(done, items + rest, i, db)
  {
    hide Fresh, Acceptable, FindByKey;
  }

  /** What follows an item that fills in nothing keeps its footing when that item is replaced. */
  lemma RestFiled(done: seq<Atom>, now: seq<Atom>, head: seq<Item>, items: seq<Item>, rest: seq<Item>, j: nat, db: Db)
    requires j < |rest| && head != [] && ItemFiled(done, head + rest, |head| + j, db)
    requires head[|head| - 1].Do? ==> !(head[|head| - 1].a.AtomMark? && head[|head| - 1].a.change.Touch?)
    ensures ItemFiled(now, items + rest, |items| + j, db)
  {
    hide FillsOwn, Parks;
    var before, after := head + rest, items + rest;
    assert before[|head| + j] == rest[j] && after[|items| + j] == rest[j];
    if j > 0 {
      assert before[|head| + j - 1] == rest[j - 1] && after[|items| + j - 1] == rest[j - 1];
    } else {
      assert before[|head| + j - 1] == head[|head| - 1];
      assert forall did :: !Preceded(done, before, |head|, did);
    }
    if j + 1 < |rest| {
      assert before[|head| + j + 1] == rest[j + 1] && after[|items| + j + 1] == rest[j + 1];
    }
  }

  lemma AnswerKeepsFiled(s: Sys, t: nat)
    requires SysInv(s) && AllFiled(s) && Enabled(s, Answer(t))
    ensures TxFiled(s.db, Next(s, Answer(t)).txs[t])
  {
    hide SysInv, See, RowsFiled, PlanFiled, DoneFills, Answerable, NextItems, NextReply;
    var tx := s.txs[t];
    SeenBodies(s, t);
    assert TxFiled(s.db, tx);
    assert tx.plan == [Ask(tx.plan[0].q)] + tx.plan[1..];
    AnswersFiled(tx.plan[0].q, See(s.db, tx.work), s.db, tx.done, tx.plan[1..]);
  }

  lemma MissKeepsFiled(s: Sys, t: nat)
    requires AllFiled(s) && Enabled(s, Miss(t))
    ensures TxFiled(s.db, Next(s, Miss(t)).txs[t])
  {
    hide RowsFiled, DoneFills, HeldByOther, See, FindByKey, FindDelivery, ItemFiled;
    var tx := s.txs[t];
    assert TxFiled(s.db, tx);
    var plan := MissPlan(s, t);
    var a := tx.plan[0].a;
    if a.AtomMark? {
      ReclaimIsFollowed(tx.done, tx.plan, s.db);
      forall i | 0 <= i < |plan| ensures ItemFiled(tx.done, plan, i, s.db) {
        assert tx.plan == tx.plan[..2] + tx.plan[2..] && plan == [] + tx.plan[2..];
        RestFiled(tx.done, tx.done, tx.plan[..2], [], tx.plan[2..], i, s.db);
      }
    } else {
      var head := if a.AtomReserve? then [Ask(AskHolder(a, tx.plan[0].attempt))]
                  else if a.AtomArrive? then [Do(AtomMark(FindDelivery(s.db, a.delivery.partner, a.delivery.key).value, Bump), 1)]
                  else [];
      assert tx.plan == [tx.plan[0]] + tx.plan[1..] && plan == head + tx.plan[1..];
      forall i | 0 <= i < |plan| ensures ItemFiled(tx.done, plan, i, s.db) {
        if i >= |head| {
          RestFiled(tx.done, tx.done, [tx.plan[0]], head, tx.plan[1..], i - |head|, s.db);
        } else {
          HeadFiled(tx.done, plan, s.db);
        }
      }
    }
  }

  lemma ReclaimIsFollowed(done: seq<Atom>, plan: seq<Item>, db: Db)
    requires PlanFiled(done, plan, db) && plan != [] && plan[0].Do? && plan[0].a.AtomMark? && plan[0].a.change == Reclaim
    ensures |plan| >= 2 && plan[1].Ask?
  {
    assert ItemFiled(done, plan, 0, db);
  }

  lemma HeadFiled(done: seq<Atom>, plan: seq<Item>, db: Db)
    requires plan != []
    requires (plan[0].Ask? && plan[0].q.AskHolder?) || (plan[0].Do? && plan[0].a.AtomMark? && plan[0].a.change == Bump)
    ensures ItemFiled(done, plan, 0, db)
  {
  }

  lemma AdvanceKeepsFiled(s: Sys, t: nat)
    requires AllFiled(s) && Enabled(s, Advance(t))
    ensures TxFiled(s.db, Next(s, Advance(t)).txs[t])
  {
    hide RowsFiled, HeldByOther, See, Can, Exec, Program, Locks, TxFiled;
    var tx := s.txs[t];
    assert TxFiled(s.db, tx);
    CompletionFiled(tx, s.db);
  }

  lemma CompletionFiled(tx: Tx, db: Db)
    requires TxFiled(db, tx) && tx.plan != [] && tx.plan[0].Do?
    ensures forall k, work :: TxFiled(db, tx.(k := k, work := work))
    ensures forall work, reply ::
      TxFiled(db, tx.(done := tx.done + [tx.plan[0].a], plan := tx.plan[1..], k := 0, work := work, reply := reply))
  {
    hide FillsOwn, Fills;
    var a := tx.plan[0].a;
    var done, plan := tx.done + [a], tx.plan[1..];
    assert ItemFiled(tx.done, tx.plan, 0, db);
    forall i | 0 <= i < |done| ensures FillsOwn(done[i], db) && (Parks(done[i]) ==> JustFilled(done[..i], done[i].did)) {
      assert done[..i] == if i < |tx.done| then tx.done[..i] else tx.done;
    }
    forall i | 0 <= i < |plan| ensures ItemFiled(done, plan, i, db) {
      assert ItemFiled(tx.done, tx.plan, i + 1, db);
    }
  }

  predicate SweepItem(item: Item) {
    if item.Do? then item.a.AtomMark? && item.a.change == Reclaim else item.q.AskBody?
  }

  predicate SweepAt(plan: seq<Item>, i: nat)
    requires i < |plan|
  {
    SweepItem(plan[i]) && (plan[i].Do? ==> i + 1 < |plan| && SweepItem(plan[i + 1]) && plan[i + 1].Ask?)
  }

  predicate Swept(plan: seq<Item>) {
    forall i :: 0 <= i < |plan| ==> SweepAt(plan, i)
  }

  lemma {:induction false} SweepItems(dids: seq<string>, clock: string -> int, ids: string -> string)
    ensures Swept(SweepPlan(dids, clock, ids))
    decreases |dids|
  {
    hide Swept;
    if dids == [] {
      SweptJoin([], []);
      assert [] + [] == SweepPlan(dids, clock, ids);
    } else {
      SweepItems(dids[1..], clock, ids);
      var first := [Do(AtomMark(dids[0], Reclaim), 1), Ask(AskBody(dids[0], clock(dids[0]), ids(dids[0])))];
      SweptJoin(first, SweepPlan(dids[1..], clock, ids));
    }
  }

  lemma SweptJoin(first: seq<Item>, rest: seq<Item>)
    requires first == [] || (|first| == 2 && SweepItem(first[0]) && SweepItem(first[1]) && first[1].Ask?)
    requires rest == [] || Swept(rest)
    ensures Swept(first + rest)
  {
    var plan := first + rest;
    forall i | 0 <= i < |plan| ensures SweepAt(plan, i) {
      if i >= |first| {
        assert SweepAt(rest, i - |first|);
      }
    }
  }

  lemma SweptItemFiled(plan: seq<Item>, i: nat, db: Db)
    requires i < |plan| && SweepAt(plan, i)
    ensures ItemFiled([], plan, i, db)
  {
  }

  lemma OpenFiled(db: Db, plan: seq<Item>, sweep: bool, role: Role)
    requires MayOpen(db, plan, sweep)
    ensures TxFiled(db, NewTx(plan, role))
  {
    if sweep {
      var dids: seq<string>, clock: string -> int, ids: string -> string :|
        plan == SweepPlan(dids, clock, ids) && forall did :: did in dids ==> did in db.deliveries;
      SweepItems(dids, clock, ids);
      forall i | 0 <= i < |plan| ensures ItemFiled([], plan, i, db) {
        assert SweepAt(plan, i);
        SweptItemFiled(plan, i, db);
      }
    }
  }

  lemma SettlersFiled(db: Db, a: Atom, role: Role)
    requires !a.AtomMark?
    ensures TxFiled(db, NewTx([Do(a, 1)], role))
  {
  }

  lemma OneTxFiled(s: Sys, act: Action, t: nat)
    requires SysInv(s) && AllFiled(s) && Enabled(s, act) && t in Next(s, act).txs
    requires !act.Commit? && !act.Change?
    ensures TxFiled(s.db, Next(s, act).txs[t])
  {
    hide SysInv, TxFiled, RowsFiled, MayOpen, Answerable, MayMiss, MayAdvance, NextItems, NextReply, MissPlan, Advanced, See;
    if act == Answer(t) {
      AnswerKeepsFiled(s, t);
    } else if act == Miss(t) {
      MissKeepsFiled(s, t);
    } else if act == Advance(t) {
      AdvanceKeepsFiled(s, t);
    } else if act.Open? && act.t == t {
      OpenFiled(s.db, act.plan, act.sweep, if act.sweep then Sweep else Plain);
    } else if act.OpenFulfil? && act.t == t {
      SettlersFiled(s.db, AtomFulfil(act.rid, act.ref), Fulfilling(act.rid));
    } else if act.OpenCompensate? && act.t == t {
      var v := s.owners[act.rid].v;
      SettlersFiled(s.db, AtomCompensate(v, act.reason, FindRow(s.db.ledger, v.entryId).value, act.eid, act.at), Compensating(act.rid));
    }
  }

  lemma ChangeKeepsFiled(s: Sys, e: Edit)
    requires SysInv(s) && AllFiled(s) && Enabled(s, Change(e))
    ensures AllFiled(Next(s, Change(e)))
  {
    hide SysInv, Valid, Evolves, TxFiled, MayEdit, Columned;
    SysValid(s);
    EditKeepsValid(s, e);
    forall t | t in s.txs ensures TxFiled(Edited(s.db, e), s.txs[t]) {
      TxFiledStable(s.db, Edited(s.db, e), s.txs[t]);
    }
  }

  lemma ActionKeepsFiled(s: Sys, act: Action)
    requires SysInv(s) && AllFiled(s) && Enabled(s, act)
    ensures AllFiled(Next(s, act))
  {
    hide SysInv, TxFiled, RowsFiled, Enabled, Next, Evolves;
    if act.Commit? {
      CommitKeepsFiled(s, act.t);
    } else if act.Change? {
      ChangeKeepsFiled(s, act.e);
    } else {
      ActionEvolves(s, act);
      forall t | t in Next(s, act).txs ensures TxFiled(s.db, Next(s, act).txs[t]) {
        OneTxFiled(s, act, t);
      }
    }
  }

  /** In every reachable state a parked delivery holds an acceptable event, under the user and the activity type
      of that event: a backfill by either finds it. */
  lemma {:induction false} ParkedIsFiled(acts: seq<Action>)
    requires IsRun(START, acts)
    ensures SysInv(After(START, acts)) && AllFiled(After(START, acts))
    decreases |acts|
  {
    hide SysInv, Enabled, Next, RowsFiled, TxFiled;
    if acts == [] {
      StartHolds();
      StartFiled();
    } else {
      var init := acts[..|acts| - 1];
      ParkedIsFiled(init);
      ActionKeepsFiled(After(START, init), acts[|acts| - 1]);
      ActionKeeps(After(START, init), acts[|acts| - 1]);
    }
  }

  lemma StartFiled()
    ensures AllFiled(START)
  {
  }
}
