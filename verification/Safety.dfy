/** What every reachable state of the concurrent system satisfies, and why every commit is atomic. */
module Safety {
  import opened Schema
  import opened Earning
  import opened Ledger
  import opened Redeeming
  import opened Webhook
  import opened Atoms
  import opened Statements
  import opened Stability
  import opened Programs
  import opened System

  // ----- One transaction -----

  function Flat(done: seq<Atom>): seq<Stmt> {
    if done == [] then [] else Flat(done[..|done| - 1]) + Program(done[|done| - 1])
  }

  /** The statements issued so far of the step in progress. */
  function Current(tx: Tx): seq<Stmt> {
    if tx.plan != [] && tx.plan[0].Do? && tx.k <= |Program(tx.plan[0].a)| then Program(tx.plan[0].a)[..tx.k] else []
  }

  function Log(tx: Tx): seq<Stmt> {
    Flat(tx.done) + Current(tx)
  }

  /** What the service knows when it asks, and goes on knowing. */
  ghost predicate Askable(q: Query, db: Db) {
    match q
    case AskPrior(_, _, _, _) => true
    case AskReward(_, _, _, _) => true
    case AskHolder(claim, _) => claim.AtomReserve? && Admissible(claim, db)
    case AskBody(did, _, _) => did in db.deliveries
    case AskPrice(did, _, _) => did in db.deliveries && Acceptable(db.deliveries[did].body)
  }

  ghost predicate ItemOk(i: Item, db: Db) {
    match i
    case Do(a, _) => Admissible(a, db)
    case Ask(q) => Askable(q, db)
  }

  ghost predicate PlanOk(plan: seq<Item>, db: Db) {
    forall i :: 0 <= i < |plan| ==> ItemOk(plan[i], db)
  }

  ghost predicate DoneOk(done: seq<Atom>, db: Db) {
    forall i :: 0 <= i < |done| ==> Admissible(done[i], db)
  }

  ghost predicate Positioned(tx: Tx) {
    if tx.plan != [] && tx.plan[0].Do? then tx.k < |Program(tx.plan[0].a)| else tx.k == 0
  }

  /** The work in hand is what the statements issued so far would produce now, against the committed
      database as it stands, whatever has been committed since they ran. */
  ghost predicate Replayable(db: Db, tx: Tx) {
    Runs(NO_WORK, Log(tx), db) && tx.work == Run(NO_WORK, Log(tx), db)
  }

  ghost predicate TxInv(db: Db, tx: Tx) {
    Positioned(tx) && Replayable(db, tx) && PlanOk(tx.plan, db) && DoneOk(tx.done, db)
  }

  // ----- Facts survive -----

  lemma ItemOkStable(i: Item, db: Db, d: Db)
    requires ItemOk(i, db) && Evolves(db, d) && NoClash(d.rules)
    ensures ItemOk(i, d)
  {
    hide Admissible;
    match i
    case Do(a, _) => AdmissibleStable(a, db, d);
    case Ask(AskHolder(claim, _)) => AdmissibleStable(claim, db, d);
    case Ask(AskBody(did, _, _)) => DeliveryPersists(db, d, did);
    case Ask(AskPrice(did, _, _)) => DeliveryPersists(db, d, did);
    case _ =>
  }

  lemma DeliveryPersists(db: Db, d: Db, did: string)
    requires Evolves(db, d) && did in db.deliveries
    ensures did in d.deliveries && d.deliveries[did].body == db.deliveries[did].body
  {
    hide LaterRedemption, StockConserved;
  }

  lemma PlanOkStable(plan: seq<Item>, db: Db, d: Db)
    requires PlanOk(plan, db) && Evolves(db, d) && NoClash(d.rules)
    ensures PlanOk(plan, d)
  {
    hide ItemOk, Evolves, NoClash;
    forall i | 0 <= i < |plan| ensures ItemOk(plan[i], d) {
      ItemOkStable(plan[i], db, d);
    }
  }

  lemma DoneOkStable(done: seq<Atom>, db: Db, d: Db)
    requires DoneOk(done, db) && Evolves(db, d) && NoClash(d.rules)
    ensures DoneOk(done, d)
  {
    hide Admissible, Evolves, NoClash;
    forall i | 0 <= i < |done| ensures Admissible(done[i], d) {
      AdmissibleStable(done[i], db, d);
    }
  }

  lemma TxStable(db: Db, d: Db, tx: Tx)
    requires TxInv(db, tx) && Undisturbed(db, d, tx.work.locks) && Evolves(db, d) && NoClash(d.rules)
    ensures TxInv(d, tx)
  {
    hide Evolves, NoClash, Undisturbed, PlanOk, DoneOk, Runs, Run;
    RunStable(NO_WORK, Log(tx), db, d);
    PlanOkStable(tx.plan, db, d);
    DoneOkStable(tx.done, db, d);
  }

  // ----- Steps, one after another -----

  /** The atomic steps succeed in order. */
  ghost predicate Succeed(done: seq<Atom>, db: Db)
    decreases |done|, 0
  {
    done == [] ||
    var init := done[..|done| - 1];
    Succeed(init, db) && Succeeds(done[|done| - 1], Steps(init, db))
  }

  ghost function Steps(done: seq<Atom>, db: Db): Db
    requires Succeed(done, db)
    decreases |done|, 1
  {
    if done == [] then db else Effect(done[|done| - 1], Steps(done[..|done| - 1], db))
  }

  /** The one unguarded write runs in a transaction of its own, on a row still RESERVED. */
  ghost predicate FulfilsReserved(done: seq<Atom>, db: Db) {
    forall i :: 0 <= i < |done| && done[i].AtomFulfil? ==>
      |done| == 1 && done[i].rid in db.redemptions && db.redemptions[done[i].rid].status == RESERVED
  }

  lemma SeeNothing(db: Db)
    ensures See(db, NO_WORK) == db
  {
    assert db.ledger + [] == db.ledger;
    assert db.balances + map[] == db.balances && db.rewards + map[] == db.rewards;
    assert db.redemptions + map[] == db.redemptions && db.deliveries + map[] == db.deliveries;
  }

  /** Completed programs, statement by statement, are their atomic steps on the committed database. */
  lemma {:induction false} DoneIsSteps(done: seq<Atom>, db: Db)
    requires Valid(db) && DoneOk(done, db) && FulfilsReserved(done, db)
    requires Runs(NO_WORK, Flat(done), db)
    ensures Succeed(done, db) && See(db, Run(NO_WORK, Flat(done), db)) == Steps(done, db)
    ensures Valid(Steps(done, db)) && Evolves(db, Steps(done, db))
    decreases |done|
  {
    hide Valid, Evolves, Admissible, Succeeds, Effect, Runs, Run, See, Program;
    if done == [] {
      RunNothing(NO_WORK, db);
      SeeNothing(db);
      EvolvesReflexive(db);
    } else {
      var init, a := done[..|done| - 1], done[|done| - 1];
      assert Flat(done) == Flat(init) + Program(a);
      RunConcat(NO_WORK, Flat(init), Program(a), db);
      DoneIsSteps(init, db);
      var w, mid := Run(NO_WORK, Flat(init), db), Steps(init, db);
      ValidRules(mid);
      assert Admissible(a, db);
      AdmissibleStable(a, db, mid);
      if a.AtomCompensate? {
        OriginalIsFound(a, mid);
      }
      ProgramIsStep(w, a, db);
      FulfilOnlyFirst(done, db);
      StepKeepsValid(a, mid);
      EvolvesTransitive(db, mid, Effect(a, mid));
    }
  }

  lemma FulfilOnlyFirst(done: seq<Atom>, db: Db)
    requires done != [] && FulfilsReserved(done, db) && Succeed(done[..|done| - 1], db)
    ensures var a := done[|done| - 1];
      a.AtomFulfil? ==> var mid := Steps(done[..|done| - 1], db);
        a.rid in mid.redemptions && mid.redemptions[a.rid].status == RESERVED
  {
  }

  lemma ValidRules(db: Db)
    requires Valid(db)
    ensures RulesInv(db.rules) && NoClash(db.rules)
  {
    hide LedgerState, RedemptionInv, DeliveryInv;
  }

  lemma OriginalIsFound(a: Atom, db: Db)
    requires Valid(db) && a.AtomCompensate? && Admissible(a, db)
    ensures FindRow(db.ledger, a.v.entryId) == Some(a.original)
  {
    hide RedemptionInv, DeliveryInv, RulesInv;
    LedgerOfState(db);
    RowById(db.ledger, a.original);
  }

  // ----- Progress within a transaction -----

  lemma LogAdvances(tx: Tx, db: Db)
    requires AtStatement(tx) && Can(NextStmt(tx), See(db, tx.work), tx.work)
    ensures Log(Advanced(db, tx)) == Log(tx) + [NextStmt(tx)]
  {
    hide Program, Exec, Can, See;
    var p, tx' := Program(tx.plan[0].a), Advanced(db, tx);
    assert p[..tx.k + 1] == p[..tx.k] + [p[tx.k]];
    if tx.k + 1 < |p| {
      assert Log(tx') == Flat(tx.done) + (p[..tx.k] + [p[tx.k]]);
    } else {
      assert p == p[..tx.k + 1];
      assert tx'.done[..|tx'.done| - 1] == tx.done;
      assert Flat(tx'.done) == Flat(tx.done) + p;
      NothingIssuedYet(tx');
    }
  }

  lemma NothingIssuedYet(tx: Tx)
    requires tx.k == 0
    ensures Log(tx) == Flat(tx.done)
  {
    assert Current(tx) == [];
  }

  lemma AdvanceKeeps(tx: Tx, db: Db)
    requires TxInv(db, tx) && AtStatement(tx) && Can(NextStmt(tx), See(db, tx.work), tx.work)
    ensures TxInv(db, Advanced(db, tx))
  {
    hide Can, Exec, ItemOk, Admissible, Log, Runs, Run, See, Program;
    LogAdvances(tx, db);
    RunPush(NO_WORK, Log(tx), NextStmt(tx), db);
    HeadAdmissible(tx, db);
    ProgramsStart(tx);
  }

  lemma HeadAdmissible(tx: Tx, db: Db)
    requires tx.plan != [] && tx.plan[0].Do? && PlanOk(tx.plan, db)
    ensures Admissible(tx.plan[0].a, db)
  {
    assert ItemOk(tx.plan[0], db);
  }

  lemma ProgramsStart(tx: Tx)
    requires tx.plan != []
    ensures Positioned(tx.(plan := tx.plan[1..], k := 0))
  {
  }

  /** Replacing what is still to come, between steps, loses nothing already done. */
  lemma ReplanKeeps(tx: Tx, plan: seq<Item>, reply: Option<Answered>, db: Db)
    requires TxInv(db, tx) && tx.k == 0 && PlanOk(plan, db)
    ensures TxInv(db, tx.(plan := plan, reply := reply))
  {
    hide PlanOk, DoneOk, Runs, Run, Log;
    NothingIssuedYet(tx);
    NothingIssuedYet(tx.(plan := plan, reply := reply));
  }
}
