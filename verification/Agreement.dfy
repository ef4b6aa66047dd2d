/** The transition system and the services' specification functions describe one service. Over the system's own
    runs: a transaction that has the system to itself can commit exactly when its function succeeds, and then
    every way it can commit leaves the database the function says. */
module Agreement {
  import opened Schema
  import opened Earning
  import opened Ledger
  import opened Redeeming
  import opened Webhook
  import opened Atoms
  import opened Statements
  import opened Stability
  import opened Programs
  import opened Progress
  import opened System
  import opened Safety
  import opened Reachable
  import opened Shapes
  import opened Guarantees
  import opened SoloPlans
  import opened Deadlock
  import opened Contention

  // ----- Runs, put together -----

  lemma {:induction false} RunsJoinUp(s: Sys, a: seq<Action>, b: seq<Action>)
    requires IsRun(s, a) && IsRun(After(s, a), b)
    ensures IsRun(s, a + b) && After(s, a + b) == After(After(s, a), b)
    decreases |b|
  {
    hide Enabled, Next;
    if b == [] {
      assert a + b == a;
    } else {
      var init := b[..|b| - 1];
      RunsJoinUp(s, a, init);
      assert (a + b)[..|a + b| - 1] == a + init;
    }
  }

  lemma {:induction false} RunsComeApart(s: Sys, a: seq<Action>, b: seq<Action>)
    requires IsRun(s, a + b)
    ensures IsRun(s, a) && IsRun(After(s, a), b) && After(s, a + b) == After(After(s, a), b)
    decreases |b|
  {
    hide Enabled, Next;
    if b == [] {
      assert a + b == a;
    } else {
      var init := b[..|b| - 1];
      assert (a + b)[..|a + b| - 1] == a + init;
      RunsComeApart(s, a, init);
    }
  }

  lemma OneAction(s: Sys, act: Action)
    ensures IsRun(s, [act]) <==> Enabled(s, act)
    ensures Enabled(s, act) ==> After(s, [act]) == Next(s, act)
  {
    hide Enabled, Next;
    assert [act][..0] == [];
  }

  // ----- A transaction that has the system to itself -----

  /** The transaction's own moves, short of committing. */
  predicate Own(t: nat, act: Action) {
    act == Answer(t) || act == Advance(t) || act == Miss(t)
  }

  predicate AllOwn(t: nat, acts: seq<Action>) {
    forall i :: 0 <= i < |acts| ==> Own(t, acts[i])
  }

  ghost predicate OnlyTx(s: Sys, t: nat) {
    SysInv(s) && ShapesOk(s) && t in s.txs && forall u :: u in s.txs ==> u == t
  }

  lemma NobodyElseHolds(s: Sys, t: nat, r: Resource)
    requires OnlyTx(s, t)
    ensures !HeldByOther(s, t, r)
  {
    hide SysInv, ShapesOk;
  }

  lemma DoneFirst(s: Sys, t: nat)
    requires SysInv(s) && t in s.txs
    ensures var done := s.txs[t].done;
      Succeed(done, s.db) && Valid(Steps(done, s.db)) && Evolves(s.db, Steps(done, s.db))
  {
    hide SysInv, Valid, Evolves, Succeed, Runs, Run, PlanOk, DoneOk, Positioned;
    TxFacts(s, t);
    FulfilsAreReserved(s, t);
    SysValid(s);
    RunConcat(NO_WORK, Flat(s.txs[t].done), Current(s.txs[t]), s.db);
    DoneIsSteps(s.txs[t].done, s.db);
  }

  /** What the transaction would commit if its plan were followed from here with nobody else about. */
  ghost function Outlook(s: Sys, t: nat): Option<Db>
    requires SysInv(s) && t in s.txs
  {
    DoneFirst(s, t);
    Alone(Steps(s.txs[t].done, s.db), s.txs[t].plan)
  }

  /** A system with this one transaction in place of another. */
  predicate OnlyPlanMoved(s: Sys, s': Sys, t: nat) {
    t in s.txs && t in s'.txs && s'.db == s.db && s'.owners == s.owners && s'.txs.Keys == s.txs.Keys
  }

  lemma OwnMovesOneTx(s: Sys, t: nat, act: Action)
    requires OnlyTx(s, t) && Own(t, act) && Enabled(s, act)
    ensures OnlyPlanMoved(s, Next(s, act), t) && OnlyTx(Next(s, act), t)
  {
    hide SysInv, ShapesOk, Evolves, Enabled, Next;
    ActionKeeps(s, act);
    ActionKeepsShapes(s, act);
    OwnMoveReplaces(s, t, act);
  }

  lemma OwnMoveReplaces(s: Sys, t: nat, act: Action)
    requires Own(t, act) && Enabled(s, act)
    ensures OnlyPlanMoved(s, Next(s, act), t)
  {
    hide Answerable, MayAdvance, MayMiss, NextItems, NextReply, MissPlan, Advanced, See;
  }

  // ----- Every own move keeps the outlook -----

  lemma AnswerKeepsOutlook(s: Sys, t: nat)
    requires OnlyTx(s, t) && Enabled(s, Answer(t)) && SysInv(Next(s, Answer(t)))
    ensures Outlook(Next(s, Answer(t)), t) == Outlook(s, t)
  {
    hide SysInv, ShapesOk, Alone, NextItems, NextReply, Answerable, Enabled, Next, Valid, Evolves, Succeed, Steps, Covered, See;
    AnswerReplans(s, t);
    AskedBetweenSteps(s, t);
    SeesSteps(s, t);
    var tx := s.txs[t];
    AskAlone(See(s.db, tx.work), tx.plan[0].q, tx.plan[1..]);
    assert tx.plan == [Ask(tx.plan[0].q)] + tx.plan[1..];
  }

  lemma MissFollowsPlan(s: Sys, t: nat)
    requires OnlyTx(s, t) && t in s.txs && MayMiss(s, t)
    ensures var tx := s.txs[t];
      var v := See(s.db, tx.work);
      Misses(tx.plan[0].a, v) && MissPlan(s, t) == AfterMiss(tx.plan[0].a, tx.plan[0].attempt, tx.plan[1..], v)
  {
    hide SysInv, See, FindByKey, FindDelivery;
    var tx := s.txs[t];
    forall r ensures !HeldByOther(s, t, r) {
      NobodyElseHolds(s, t, r);
    }
    if tx.plan[0].a.AtomArrive? {
      ArrivalSeesCommitted(s, t);
    }
  }

  /** A capture is a transaction's only step, so it looks at the committed database. */
  lemma ArrivalSeesCommitted(s: Sys, t: nat)
    requires SysInv(s) && ShapesOk(s) && t in s.txs && s.txs[t].k == 0
    requires s.txs[t].plan != [] && s.txs[t].plan[0].Do? && s.txs[t].plan[0].a.AtomArrive?
    ensures See(s.db, s.txs[t].work) == s.db
  {
    hide SysInv, TxInv, See;
    TxFacts(s, t);
    var tx := s.txs[t];
    assert Shaped(tx);
    assert tx.role.Sweep? ==> DeliveryItem(tx.plan[0]);
    WaitingSeesCommitted(s.db, tx);
  }

  lemma MissKeepsOutlook(s: Sys, t: nat)
    requires OnlyTx(s, t) && Enabled(s, Miss(t)) && SysInv(Next(s, Miss(t)))
    ensures Outlook(Next(s, Miss(t)), t) == Outlook(s, t)
  {
    hide SysInv, ShapesOk, MayMiss, MissPlan, Misses, AfterMiss, Valid, Evolves, Succeed, Steps, Covered, See;
    BetweenStepsAtMiss(s, t);
    SeesSteps(s, t);
    MissFollowsPlan(s, t);
    MissAlone(See(s.db, s.txs[t].work), s.txs[t].plan);
  }

  lemma BetweenStepsAtMiss(s: Sys, t: nat)
    requires t in s.txs && MayMiss(s, t)
    ensures s.txs[t].k == 0 && s.txs[t].plan != [] && s.txs[t].plan[0].Do?
  {
  }

  lemma MissAlone(db: Db, plan: seq<Item>)
    requires plan != [] && plan[0].Do? && Misses(plan[0].a, db)
    ensures Alone(db, plan) == Alone(db, AfterMiss(plan[0].a, plan[0].attempt, plan[1..], db))
  {
  }

  lemma SucceedsMeansNoMiss(a: Atom, db: Db)
    requires Succeeds(a, db)
    ensures !Misses(a, db)
  {
    hide FindByKey, FindDelivery, CreditDelivery, Append;
  }

  lemma AdvanceMoves(s: Sys, t: nat)
    requires Enabled(s, Advance(t))
    ensures t in s.txs && t in Next(s, Advance(t)).txs && Next(s, Advance(t)).db == s.db
    ensures var tx, tx' := s.txs[t], Next(s, Advance(t)).txs[t];
      && tx.plan != [] && tx.plan[0].Do?
      && ((tx'.done == tx.done && tx'.plan == tx.plan)
          || (tx'.done == tx.done + [tx.plan[0].a] && tx'.plan == tx.plan[1..]))
  {
    hide See, Can, Exec, Program, HeldByOther;
  }

  lemma AdvanceKeepsOutlook(s: Sys, t: nat)
    requires OnlyTx(s, t) && Enabled(s, Advance(t)) && SysInv(Next(s, Advance(t)))
    ensures Outlook(Next(s, Advance(t)), t) == Outlook(s, t)
  {
    hide SysInv, ShapesOk, Alone, Enabled, Next, Succeeds, Effect, Misses, Valid, Evolves;
    AdvanceMoves(s, t);
    DoneFirst(s, t);
    DoneFirst(Next(s, Advance(t)), t);
    var tx, tx' := s.txs[t], Next(s, Advance(t)).txs[t];
    if tx'.done != tx.done {
      var a := tx.plan[0].a;
      assert tx'.done[..|tx'.done| - 1] == tx.done;
      SucceedsMeansNoMiss(a, Steps(tx.done, s.db));
      StepAlone(Steps(tx.done, s.db), tx.plan);
    }
  }

  lemma StepAlone(db: Db, plan: seq<Item>)
    requires plan != [] && plan[0].Do? && !Misses(plan[0].a, db) && Succeeds(plan[0].a, db)
    ensures Alone(db, plan) == Alone(Effect(plan[0].a, db), plan[1..])
  {
  }

  lemma {:induction false} OwnMovesKeepOutlook(s: Sys, t: nat, acts: seq<Action>)
    requires OnlyTx(s, t) && AllOwn(t, acts) && IsRun(s, acts)
    ensures OnlyTx(After(s, acts), t) && OnlyPlanMoved(s, After(s, acts), t)
    ensures Outlook(After(s, acts), t) == Outlook(s, t)
    decreases |acts|
  {
    hide SysInv, ShapesOk, Enabled, Next, Outlook;
    if acts != [] {
      var init, act := acts[..|acts| - 1], acts[|acts| - 1];
      OwnMovesKeepOutlook(s, t, init);
      var s1 := After(s, init);
      OwnMovesOneTx(s1, t, act);
      match act
      case Answer(_) => AnswerKeepsOutlook(s1, t);
      case Advance(_) => AdvanceKeepsOutlook(s1, t);
      case Miss(_) => MissKeepsOutlook(s1, t);
      case _ =>
    }
  }

  // ----- And a plan with an outlook can be followed to its end -----

  function Advances(t: nat, n: nat): seq<Action> {
    seq(n, _ => Advance(t))
  }

  lemma {:induction false} RunsPrefix(w: Work, p: seq<Stmt>, n: nat, db: Db)
    requires Runs(w, p, db) && n < |p|
    ensures Runs(w, p[..n], db) && Can(p[n], See(db, Run(w, p[..n], db)), Run(w, p[..n], db))
    ensures Runs(w, p[..n + 1], db) && Run(w, p[..n + 1], db) == Exec(p[n], db, Run(w, p[..n], db))
  {
    hide Can, Exec;
    assert p == p[..n + 1] + p[n + 1..];
    RunConcat(w, p[..n + 1], p[n + 1..], db);
    assert p[..n + 1][..n] == p[..n];
  }

  /** The transaction after the first `n` statements of its next step. */
  ghost function Midway(s: Sys, t: nat, n: nat): Tx
    requires t in s.txs && s.txs[t].plan != [] && s.txs[t].plan[0].Do?
    requires var p := Program(s.txs[t].plan[0].a); n <= |p| && Runs(s.txs[t].work, p, s.db) && Runs(s.txs[t].work, p[..n], s.db)
  {
    var tx := s.txs[t];
    var p := Program(tx.plan[0].a);
    if n < |p| then tx.(k := n, work := Run(tx.work, p[..n], s.db))
    else
      var work := Run(tx.work, p[..n], s.db);
      tx.(done := tx.done + [tx.plan[0].a], plan := tx.plan[1..], k := 0, work := work,
          reply := Relocked(tx.reply, tx.plan[0].a, See(s.db, work)))
  }

  lemma {:induction false} StatementsRun(s: Sys, t: nat, n: nat)
    requires t in s.txs && (forall u :: u in s.txs ==> u == t)
    requires s.txs[t].plan != [] && s.txs[t].plan[0].Do? && s.txs[t].k == 0
    requires var p := Program(s.txs[t].plan[0].a); n <= |p| && Runs(s.txs[t].work, p, s.db)
    ensures Runs(s.txs[t].work, Program(s.txs[t].plan[0].a)[..n], s.db)
    ensures IsRun(s, Advances(t, n)) && After(s, Advances(t, n)) == s.(txs := s.txs[t := Midway(s, t, n)])
    decreases n
  {
    hide Can, Exec, See, Runs, Run, Enabled, Next, Program;
    var tx := s.txs[t];
    var p := Program(tx.plan[0].a);
    if n == 0 {
      RunNothing(tx.work, s.db);
      assert p[..0] == [];
      assert s.txs == s.txs[t := tx];
    } else {
      StatementsRun(s, t, n - 1);
      RunsPrefix(tx.work, p, n - 1, s.db);
      assert Advances(t, n)[..n - 1] == Advances(t, n - 1);
      NextStatementRuns(s, t, n - 1);
    }
  }

  lemma NextStatementRuns(s: Sys, t: nat, n: nat)
    requires t in s.txs && (forall u :: u in s.txs ==> u == t)
    requires s.txs[t].plan != [] && s.txs[t].plan[0].Do?
    requires var p := Program(s.txs[t].plan[0].a);
      && n < |p| && Runs(s.txs[t].work, p, s.db) && Runs(s.txs[t].work, p[..n], s.db) && Runs(s.txs[t].work, p[..n + 1], s.db)
      && Can(p[n], See(s.db, Run(s.txs[t].work, p[..n], s.db)), Run(s.txs[t].work, p[..n], s.db))
      && Run(s.txs[t].work, p[..n + 1], s.db) == Exec(p[n], s.db, Run(s.txs[t].work, p[..n], s.db))
    ensures var mid := s.(txs := s.txs[t := Midway(s, t, n)]);
      Enabled(mid, Advance(t)) && Next(mid, Advance(t)) == s.(txs := s.txs[t := Midway(s, t, n + 1)])
  {
    hide Can, Exec, See, Runs, Run, Program;
  }

  lemma StepIsAdmissible(s: Sys, t: nat)
    requires SysInv(s) && t in s.txs && s.txs[t].plan != [] && s.txs[t].plan[0].Do? && s.txs[t].k == 0
    ensures Valid(See(s.db, s.txs[t].work)) && Admissible(s.txs[t].plan[0].a, See(s.db, s.txs[t].work))
  {
    hide SysInv, Valid, Evolves, Covered, Succeed, Steps, See, Admissible, NoClash;
    TxFacts(s, t);
    SeesSteps(s, t);
    HeadAdmissible(s.txs[t], s.db);
    ValidRules(See(s.db, s.txs[t].work));
    AdmissibleStable(s.txs[t].plan[0].a, s.db, See(s.db, s.txs[t].work));
  }

  lemma MissIsAllowed(s: Sys, t: nat)
    requires OnlyTx(s, t) && s.txs[t].plan != [] && s.txs[t].plan[0].Do? && s.txs[t].k == 0
    requires Misses(s.txs[t].plan[0].a, See(s.db, s.txs[t].work))
    ensures Enabled(s, Miss(t)) && t in Next(s, Miss(t)).txs && Next(s, Miss(t)).txs[t].k == 0
    ensures var tx := s.txs[t];
      Next(s, Miss(t)).txs[t].plan == AfterMiss(tx.plan[0].a, tx.plan[0].attempt, tx.plan[1..], See(s.db, tx.work))
  {
    hide SysInv, ShapesOk, See, FindByKey, FindDelivery;
    forall r ensures !HeldByOther(s, t, r) {
      NobodyElseHolds(s, t, r);
    }
    if s.txs[t].plan[0].a.AtomArrive? {
      ArrivalSeesCommitted(s, t);
    }
    MissFollowsPlan(s, t);
  }

  lemma AnswerIsAllowed(s: Sys, t: nat)
    requires t in s.txs && s.txs[t].plan != [] && s.txs[t].plan[0].Ask? && s.txs[t].k == 0
    requires Answerable(s.txs[t].plan[0].q, See(s.db, s.txs[t].work))
    ensures Enabled(s, Answer(t)) && t in Next(s, Answer(t)).txs && Next(s, Answer(t)).txs[t].k == 0
    ensures var tx := s.txs[t];
      Next(s, Answer(t)).txs[t].plan == NextItems(tx.plan[0].q, See(s.db, tx.work)) + tx.plan[1..]
  {
    hide See, Answerable, NextItems, NextReply;
  }

  lemma OutlookNow(s: Sys, t: nat)
    requires OnlyTx(s, t) && s.txs[t].k == 0
    ensures Outlook(s, t) == Alone(See(s.db, s.txs[t].work), s.txs[t].plan)
  {
    hide SysInv, ShapesOk, Alone, Succeed, Steps, Valid, Evolves, Covered, See;
    SeesSteps(s, t);
  }

  /** What an outlook says about the next item of the plan. */
  lemma OutlookNeeds(v: Db, plan: seq<Item>)
    requires plan != [] && Alone(v, plan).Some?
    ensures plan[0].Ask? ==> Answerable(plan[0].q, v)
    ensures plan[0].Do? && !Misses(plan[0].a, v) ==> Succeeds(plan[0].a, v)
  {
    hide Answerable, Misses, Succeeds, NextItems;
  }

  /** One move, or the statements of one step, that leave less of the plan. */
  lemma Progresses(s: Sys, t: nat) returns (acts: seq<Action>)
    requires OnlyTx(s, t) && s.txs[t].k == 0 && s.txs[t].plan != [] && Outlook(s, t).Some?
    ensures AllOwn(t, acts) && IsRun(s, acts)
    ensures t in After(s, acts).txs && After(s, acts).txs[t].k == 0
    ensures Weight(After(s, acts).txs[t].plan) < Weight(s.txs[t].plan)
  {
    hide SysInv, ShapesOk, Alone, See, Enabled, Next, Answerable, NextItems, Misses, Succeeds, AfterMiss, Outlook, Valid, Admissible, Runs, Run, Program, Effect;
    OutlookNow(s, t);
    var tx := s.txs[t];
    var v := See(s.db, tx.work);
    OutlookNeeds(v, tx.plan);
    if tx.plan[0].Ask? {
      AnswerIsAllowed(s, t);
      AnswerIsLighter(tx.plan[0].q, tx.plan[1..], v);
      assert tx.plan == [Ask(tx.plan[0].q)] + tx.plan[1..];
      OneAction(s, Answer(t));
      acts := [Answer(t)];
    } else if Misses(tx.plan[0].a, v) {
      MissIsAllowed(s, t);
      MissIsLighter(tx.plan[0].a, tx.plan[0].attempt, tx.plan[1..], v);
      assert tx.plan == [Do(tx.plan[0].a, tx.plan[0].attempt)] + tx.plan[1..];
      OneAction(s, Miss(t));
      acts := [Miss(t)];
    } else {
      StepIsAdmissible(s, t);
      ProgramRunsIffStepSucceeds(tx.work, tx.plan[0].a, s.db);
      var n := |Program(tx.plan[0].a)|;
      StatementsRun(s, t, n);
      acts := Advances(t, n);
    }
  }

  lemma Finishes(s: Sys, t: nat) returns (acts: seq<Action>)
    requires OnlyTx(s, t) && s.txs[t].k == 0 && Outlook(s, t).Some?
    ensures AllOwn(t, acts) && IsRun(s, acts)
    ensures t in After(s, acts).txs && After(s, acts).txs[t].plan == []
    decreases Weight(s.txs[t].plan)
  {
    hide SysInv, ShapesOk, Outlook, IsRun, After;
    if s.txs[t].plan == [] {
      acts := [];
      NothingHappens(s);
    } else {
      var first := Progresses(s, t);
      OwnMovesKeepOutlook(s, t, first);
      var rest := Finishes(After(s, first), t);
      RunsJoinUp(s, first, rest);
      acts := first + rest;
    }
  }

  lemma NothingHappens(s: Sys)
    ensures IsRun(s, []) && After(s, []) == s
  {
  }

  // ----- Whole transactions -----

  function Whole(begin: Action, mid: seq<Action>, t: nat): seq<Action> {
    [begin] + mid + [Commit(t)]
  }

  /** A run of one transaction from its opening to its commit. */
  ghost predicate Solo(s: Sys, begin: Action, mid: seq<Action>, t: nat) {
    AllOwn(t, mid) && IsRun(s, Whole(begin, mid, t))
  }

  /** Some run of the transaction commits exactly when there is a result, and every one commits that result. */
  ghost predicate Performs(s: Sys, begin: Action, t: nat, result: Option<Db>) {
    && (result.Some? <==> exists mid :: Solo(s, begin, mid, t))
    && (forall mid :: Solo(s, begin, mid, t) ==> result == Some(After(s, Whole(begin, mid, t)).db))
  }

  ghost predicate Begins(s: Sys, begin: Action, t: nat, plan: seq<Item>) {
    && SysInv(s) && ShapesOk(s) && Enabled(s, begin)
    && exists role :: Next(s, begin).txs == map[t := NewTx(plan, role)] && Next(s, begin).db == s.db
  }

  lemma BegunIsOnly(s: Sys, begin: Action, t: nat, plan: seq<Item>)
    requires Begins(s, begin, t, plan)
    ensures OnlyTx(Next(s, begin), t) && Next(s, begin).txs[t].k == 0 && Next(s, begin).db == s.db
    ensures Outlook(Next(s, begin), t) == Alone(s.db, plan)
  {
    hide SysInv, ShapesOk, Enabled, Next, Alone, Evolves;
    ActionKeeps(s, begin);
    ActionKeepsShapes(s, begin);
  }

  lemma CommitAlone(s: Sys, t: nat)
    requires OnlyTx(s, t) && s.txs[t].plan == []
    ensures Enabled(s, Commit(t)) && Outlook(s, t) == Some(Next(s, Commit(t)).db)
  {
    hide SysInv, ShapesOk, Valid, Evolves, See, Succeed, Steps;
    CommitIsAtomic(s, t);
    NothingAlone(Steps(s.txs[t].done, s.db));
  }

  lemma SoloCommits(s: Sys, begin: Action, mid: seq<Action>, t: nat, plan: seq<Item>)
    requires Begins(s, begin, t, plan) && Solo(s, begin, mid, t)
    ensures Alone(s.db, plan) == Some(After(s, Whole(begin, mid, t)).db)
  {
    hide Enabled, Next, Alone, OnlyTx, Outlook, IsRun, After, Begins;
    BegunIsOnly(s, begin, t, plan);
    RunsComeApart(s, [begin] + mid, [Commit(t)]);
    RunsComeApart(s, [begin], mid);
    OneAction(s, begin);
    var s1 := Next(s, begin);
    OwnMovesKeepOutlook(s1, t, mid);
    var s2 := After(s1, mid);
    OneAction(s2, Commit(t));
    CommitNeedsEnd(s2, t);
    CommitAlone(s2, t);
  }

  lemma CommitNeedsEnd(s: Sys, t: nat)
    requires Enabled(s, Commit(t))
    ensures t in s.txs && s.txs[t].plan == []
  {
  }

  /** Begun with nobody else about, a plan performs exactly its outlook. */
  lemma PlanPerforms(s: Sys, begin: Action, t: nat, plan: seq<Item>)
    requires Begins(s, begin, t, plan)
    ensures Performs(s, begin, t, Alone(s.db, plan))
  {
    hide Enabled, Next, Alone, OnlyTx, Outlook, IsRun, After, Begins;
    forall mid | Solo(s, begin, mid, t) ensures Alone(s.db, plan) == Some(After(s, Whole(begin, mid, t)).db) {
      SoloCommits(s, begin, mid, t, plan);
    }
    if Alone(s.db, plan).Some? {
      BegunIsOnly(s, begin, t, plan);
      BeginIsEnabled(s, begin, t, plan);
      var s1 := Next(s, begin);
      var mid := Finishes(s1, t);
      OwnMovesKeepOutlook(s1, t, mid);
      CommitAlone(After(s1, mid), t);
      OneAction(s, begin);
      OneAction(After(s1, mid), Commit(t));
      RunsJoinUp(s, [begin], mid);
      RunsJoinUp(s, [begin] + mid, [Commit(t)]);
      assert Solo(s, begin, mid, t);
    }
  }

  lemma BeginIsEnabled(s: Sys, begin: Action, t: nat, plan: seq<Item>)
    requires Begins(s, begin, t, plan)
    ensures Enabled(s, begin)
  {
    hide Enabled, Next;
  }

  lemma CannotBegin(s: Sys, begin: Action, t: nat)
    requires !Enabled(s, begin)
    ensures Performs(s, begin, t, None)
  {
    hide Enabled, Next, IsRun, After;
    forall mid | Solo(s, begin, mid, t) ensures false {
      RunsComeApart(s, [begin] + mid, [Commit(t)]);
      RunsComeApart(s, [begin], mid);
      OneAction(s, begin);
    }
  }

  // ----- Each service -----

  /** A reachable state with no transaction open. */
  ghost predicate Idle(acts: seq<Action>) {
    IsRun(START, acts) && After(START, acts).txs == map[]
  }

  lemma OpensAlone(acts: seq<Action>, t: nat, plan: seq<Item>, sweep: bool)
    requires Idle(acts)
    ensures var s := After(START, acts);
      MayOpen(s.db, plan, sweep) ==> Begins(s, Open(t, plan, sweep), t, plan)
    ensures !MayOpen(After(START, acts).db, plan, sweep) ==> !Enabled(After(START, acts), Open(t, plan, sweep))
  {
    hide SysInv, Valid, ShapesOk, After, IsRun, MayOpen;
    ReachableValid(acts);
    var s := After(START, acts);
    if MayOpen(s.db, plan, sweep) {
      assert Next(s, Open(t, plan, sweep)).txs == map[t := NewTx(plan, if sweep then Sweep else Plain)];
    }
  }

  lemma OpenPerforms(acts: seq<Action>, t: nat, plan: seq<Item>, sweep: bool)
    requires Idle(acts)
    ensures var s := After(START, acts);
      Performs(s, Open(t, plan, sweep), t, if MayOpen(s.db, plan, sweep) then Alone(s.db, plan) else None)
  {
    hide Begins, Performs, MayOpen, Alone, IsRun, Enabled, After;
    OpensAlone(acts, t, plan, sweep);
    var s := After(START, acts);
    if MayOpen(s.db, plan, sweep) {
      PlanPerforms(s, Open(t, plan, sweep), t, plan);
    } else {
      CannotBegin(s, Open(t, plan, sweep), t);
    }
  }

  /** Phase one of a redemption. */
  lemma ReserveAgrees(acts: seq<Action>, t: nat, input: RedeemInput, rid: string, eid: string, at: int)
    requires Idle(acts)
    ensures var s := After(START, acts);
      Performs(s, Open(t, [Ask(AskPrior(input, rid, eid, at))], false), t, Committed(Reserve(s.db, input, rid, eid, at)))
  {
    hide Performs, Alone, IsRun, After, Reserve;
    OpenPerforms(acts, t, [Ask(AskPrior(input, rid, eid, at))], false);
    ReserveAlone(After(START, acts).db, input, rid, eid, at);
  }

  /** Capture of a delivery. */
  lemma CaptureAgrees(acts: seq<Action>, t: nat, partner: string, body: Body, did: string, at: int)
    requires Idle(acts)
    ensures var s := After(START, acts);
      Performs(s, Open(t, [Do(AtomArrive(did, NewDelivery(partner, body, at)), 1)], false), t,
               Committed(Capture(s.db, partner, body, did, at)))
  {
    hide Performs, Alone, IsRun, After, Capture;
    OpenPerforms(acts, t, [Do(AtomArrive(did, NewDelivery(partner, body, at)), 1)], false);
    CaptureAlone(After(START, acts).db, partner, body, did, at);
  }

  /** Processing of a delivery. */
  lemma ProcessAgrees(acts: seq<Action>, t: nat, did: string, now: int, eid: string)
    requires Idle(acts)
    ensures var s := After(START, acts);
      Performs(s, Open(t, [Ask(AskBody(did, now, eid))], false), t, Committed(Process(s.db, did, now, eid)))
  {
    hide Performs, Alone, IsRun, After, Process;
    var db, ask := After(START, acts).db, Ask(AskBody(did, now, eid));
    OpenPerforms(acts, t, [ask], false);
    ProcessAlone(db, did, now, eid, []);
    assert [ask] + [] == [ask];
    NothingAlone(Process(db, did, now, eid).0);
    UnknownFails(db, did, now, eid);
  }

  lemma UnknownFails(db: Db, did: string, now: int, eid: string)
    ensures did !in db.deliveries ==> Process(db, did, now, eid).1.Err?
  {
  }

  /** A backfill over the candidates a query listed. */
  lemma BackfillAgrees(acts: seq<Action>, t: nat, f: Filter, dids: seq<string>, clock: string -> int, ids: string -> string)
    requires Idle(acts) && (f.userRef.Some? || f.activityType.Some?)
    requires forall did :: did in dids ==> did in After(START, acts).db.deliveries
    ensures var s := After(START, acts);
      Performs(s, Open(t, SweepPlan(dids, clock, ids), true), t, Committed(Backfill(s.db, f, dids, clock, ids)))
  {
    hide Performs, Alone, IsRun, After, Replay;
    OpenPerforms(acts, t, SweepPlan(dids, clock, ids), true);
    BackfillAlone(After(START, acts).db, dids, Counts(|dids|, 0, 0, 0, 0), clock, ids);
  }

  /** An append by an operator, or the correction of a credit. */
  lemma AppendAgrees(acts: seq<Action>, t: nat, input: AppendInput, id: string, at: int)
    requires Idle(acts) && Admissible(AtomAppend(input, id, at), After(START, acts).db)
    ensures var s := After(START, acts);
      Performs(s, Open(t, [Do(AtomAppend(input, id, at), 1)], false), t, Committed(Append(s.db, input, id, at)))
  {
    hide Performs, Alone, IsRun, After, Append, Admissible;
    OpenPerforms(acts, t, [Do(AtomAppend(input, id, at), 1)], false);
    PlainAlone(After(START, acts).db, AtomAppend(input, id, at));
  }

  /** The write of FAILED that follows a failed processing. */
  lemma FailAgrees(acts: seq<Action>, t: nat, did: string)
    requires Idle(acts)
    ensures var s := After(START, acts);
      Performs(s, Open(t, [Do(AtomMark(did, Fail), 1)], false), t,
               if did in s.db.deliveries then Some(Update(s.db, did, Fail)) else None)
  {
    hide Performs, Alone, IsRun, After, Alter;
    OpenPerforms(acts, t, [Do(AtomMark(did, Fail), 1)], false);
    PlainAlone(After(START, acts).db, AtomMark(did, Fail));
  }

  /** The action opens a settlement of a redemption, with this plan. */
  predicate Settles(s: Sys, begin: Action, t: nat, plan: seq<Item>) {
    match begin
    case OpenFulfil(u, rid, ref) => u == t && plan == [Do(AtomFulfil(rid, ref), 1)]
    case OpenCompensate(u, rid, reason, eid, at) =>
      && u == t && rid in s.owners
      && var original := FindRow(s.db.ledger, s.owners[rid].v.entryId);
         original.Some? && plan == [Do(AtomCompensate(s.owners[rid].v, reason, original.value, eid, at), 1)]
    case _ => false
  }

  lemma SettlingBegins(acts: seq<Action>, begin: Action, t: nat, plan: seq<Item>)
    requires Idle(acts) && Enabled(After(START, acts), begin) && Settles(After(START, acts), begin, t, plan)
    ensures Begins(After(START, acts), begin, t, plan)
  {
    hide SysInv, Valid, ShapesOk, After, IsRun;
    ReachableValid(acts);
    var s := After(START, acts);
    assert Next(s, begin).txs == map[t := NewTx(plan, if begin.OpenFulfil? then Fulfilling(begin.rid) else Compensating(begin.rid))];
  }

  /** The FULFILLED write of the caller that owns the redemption. */
  lemma FulfilAgrees(acts: seq<Action>, t: nat, rid: string, ref: string)
    requires Idle(acts) && rid in After(START, acts).owners && !After(START, acts).owners[rid].failing
    ensures var s := After(START, acts);
      && rid in s.db.redemptions
      && Performs(s, OpenFulfil(t, rid, ref), t, Some(Fulfil(s.db, rid, ref)))
  {
    hide Performs, Alone, After, SysInv, ShapesOk, Begins, Valid, IsRun, Fulfil;
    ReachableValid(acts);
    var s := After(START, acts);
    OwnedRedemptionExists(s, rid);
    SettlingBegins(acts, OpenFulfil(t, rid, ref), t, [Do(AtomFulfil(rid, ref), 1)]);
    PlanPerforms(s, OpenFulfil(t, rid, ref), t, [Do(AtomFulfil(rid, ref), 1)]);
    PlainAlone(s.db, AtomFulfil(rid, ref));
  }

  /** Compensation by the caller that owns the redemption. */
  lemma CompensateAgrees(acts: seq<Action>, t: nat, rid: string, reason: string, eid: string, at: int)
    requires Idle(acts) && rid in After(START, acts).owners
    ensures var s := After(START, acts);
      Performs(s, OpenCompensate(t, rid, reason, eid, at), t, Committed(Compensate(s.db, s.owners[rid].v, reason, eid, at)))
  {
    hide Performs, Alone, After, SysInv, ShapesOk, Begins, Valid, IsRun, Compensate;
    ReachableValid(acts);
    var s := After(START, acts);
    OwnedDebit(s, rid);
    OwnerMayFail(s, rid);
    var v := s.owners[rid].v;
    var original := FindRow(s.db.ledger, v.entryId).value;
    var plan := [Do(AtomCompensate(v, reason, original, eid, at), 1)];
    SettlingBegins(acts, OpenCompensate(t, rid, reason, eid, at), t, plan);
    PlanPerforms(s, OpenCompensate(t, rid, reason, eid, at), t, plan);
    CompensateAlone(s.db, v, reason, original, eid, at);
  }

  // ----- A key whose claim was rolled back -----

  /** While a transaction holds an idempotency key, nobody has committed a claim of it. */
  lemma HeldKeyIsUnclaimed(s: Sys, t: nat, userId: string, key: string)
    requires SysInv(s) && t in s.txs && ClaimKey(userId, key) in s.txs[t].work.locks
    ensures FindByKey(s.db, userId, key).None?
  {
    hide SysInv, Runs, Run, See, PlanOk, DoneOk, Positioned, RoleOk, Covered, FindByKey, HoldsClaim;
    TxFacts(s, t);
    var log := Log(s.txs[t]);
    RunLocks(log, s.db);
    var i :| 0 <= i < |log| && ClaimKey(userId, key) in MayLock(log[i]);
    OnlyClaimsLockKeys(log[i], userId, key);
    RunsPrefix(NO_WORK, log, i, s.db);
    InsertedKeyIsFree(log[i], s.db, Run(NO_WORK, log[..i], s.db));
    RunCovered(log[..i], s.db);
    CoveredHidesNoClaim(s.db, Run(NO_WORK, log[..i], s.db), userId, key);
  }

  lemma OnlyClaimsLockKeys(s: Stmt, userId: string, key: string)
    requires ClaimKey(userId, key) in MayLock(s)
    ensures s.InsertRedemption? && HoldsClaim(s.row, userId, key)
  {
  }

  lemma InsertedKeyIsFree(s: Stmt, db: Db, w: Work)
    requires s.InsertRedemption? && Can(s, See(db, w), w)
    ensures FindByKey(See(db, w), s.row.userId, s.row.key).None?
  {
    hide See, FindByKey;
  }

  lemma CoveredHidesNoClaim(db: Db, w: Work, userId: string, key: string)
    requires Covered(db, w) && FindByKey(See(db, w), userId, key).None?
    ensures FindByKey(db, userId, key).None?
  {
    hide EntryLocks, DeliveriesCovered, RewardsCovered;
    forall rid | rid in db.redemptions ensures !HoldsClaim(db.redemptions[rid], userId, key) {
      assert rid in See(db, w).redemptions;
      assert rid in w.redemptions ==> SameClaim(db.redemptions[rid], w.redemptions[rid]);
    }
  }

  predicate OnlyRollbacks(ends: seq<Action>) {
    forall act :: act in ends ==> act.Rollback?
  }

  /** From the state on, the given request can be run to a commit after which it holds its key: once these
      transactions have rolled back it needs nobody else. */
  ghost predicate ClaimsAfter(s: Sys, ends: seq<Action>, mid: seq<Action>, u: nat, input: RedeemInput, rid: string, eid: string, at: int) {
    var begin := Open(u, [Ask(AskPrior(input, rid, eid, at))], false);
    && OnlyRollbacks(ends) && IsRun(s, ends) && After(s, ends).db == s.db
    && Solo(After(s, ends), begin, mid, u)
    && FindByKey(After(After(s, ends), Whole(begin, mid, u)).db, input.userId, input.key) == Some(rid)
  }

  /** Rolling a claim back restores the database and leaves the key free, whoever else is open: a request with it
      that can be paid for can run to its commit, and holds the key from then on. (The others, none of which can
      hold the key, may hold its user's balance or its reward, so they end first.) */
  lemma RolledBackKeyCanBeClaimed(acts: seq<Action>, t: nat, u: nat, input: RedeemInput, rid: string, eid: string, at: int, cost: int)
    requires IsRun(START, acts) && t in After(START, acts).txs
    requires ClaimKey(input.userId, input.key) in After(START, acts).txs[t].work.locks
    requires var db := After(START, acts).db;
      && UserExists(db, input.userId) && OnSale(db, input.rewardId, cost) && InStock(db, input.rewardId)
      && Balance(db, input.userId) >= cost && rid !in db.redemptions && !HasId(db.ledger, eid)
    ensures var s := Next(After(START, acts), Rollback(t));
      && s.db == After(START, acts).db
      && !HeldByOther(s, u, ClaimKey(input.userId, input.key))
      && exists ends, mid :: ClaimsAfter(s, ends, mid, u, input, rid, eid, at)
  {
    hide SysInv, Valid, ShapesOk, After, IsRun, Enabled, FindByKey, UserExists, OnSale, HasId, Balance, HeldByOther, OnlyRollbacks;
    ReachableValid(acts);
    HeldKeyIsUnclaimed(After(START, acts), t, input.userId, input.key);
    RollbackLeavesNoTrace(acts, t, u, ClaimKey(input.userId, input.key));
    RollbackIsReachable(acts, t);
    var acts' := acts + [Rollback(t)];
    var ends := EveryoneRollsBack(acts');
    var mid := IdleKeyCanBeClaimed(acts' + ends, u, input, rid, eid, at, cost);
    RunsComeApart(START, acts', ends);
    assert ClaimsAfter(Next(After(START, acts), Rollback(t)), ends, mid, u, input, rid, eid, at);
  }

  lemma IdleKeyCanBeClaimed(acts: seq<Action>, u: nat, input: RedeemInput, rid: string, eid: string, at: int, cost: int)
    returns (mid: seq<Action>)
    requires Idle(acts) && FindByKey(After(START, acts).db, input.userId, input.key).None?
    requires var db := After(START, acts).db;
      && UserExists(db, input.userId) && OnSale(db, input.rewardId, cost) && InStock(db, input.rewardId)
      && Balance(db, input.userId) >= cost && rid !in db.redemptions && !HasId(db.ledger, eid)
    ensures var begin := Open(u, [Ask(AskPrior(input, rid, eid, at))], false);
      && Solo(After(START, acts), begin, mid, u)
      && FindByKey(After(After(START, acts), Whole(begin, mid, u)).db, input.userId, input.key) == Some(rid)
  {
    hide SysInv, Valid, ShapesOk, After, IsRun, Reserve, Enabled, FindByKey, UserExists, OnSale, HasId, Balance;
    var s := After(START, acts);
    var begin := Open(u, [Ask(AskPrior(input, rid, eid, at))], false);
    ReserveAgrees(acts, u, input, rid, eid, at);
    ClaimLands(s.db, input, rid, eid, at, cost);
    mid :| Solo(s, begin, mid, u);
    assert Some(After(s, Whole(begin, mid, u)).db) == Committed(Reserve(s.db, input, rid, eid, at));
    SoloIsReachable(acts, begin, mid, u);
    ReachableValid(acts + Whole(begin, mid, u));
    KeyFindsItsOwn(After(s, Whole(begin, mid, u)).db, input.userId, input.key, rid);
  }

  lemma RollbackIsReachable(acts: seq<Action>, t: nat)
    requires IsRun(START, acts) && t in After(START, acts).txs
    ensures Enabled(After(START, acts), Rollback(t)) && IsRun(START, acts + [Rollback(t)])
    ensures After(START, acts + [Rollback(t)]) == Next(After(START, acts), Rollback(t))
    ensures After(START, acts + [Rollback(t)]).db == After(START, acts).db
    ensures After(START, acts + [Rollback(t)]).txs == After(START, acts).txs - {t}
  {
    OneAction(After(START, acts), Rollback(t));
    RunsJoinUp(START, acts, [Rollback(t)]);
    hide After, IsRun;
  }

  /** Everyone who is open can roll back, one after another. */
  lemma EveryoneRollsBack(acts: seq<Action>) returns (ends: seq<Action>)
    requires IsRun(START, acts)
    ensures OnlyRollbacks(ends) && Idle(acts + ends) && After(START, acts + ends).db == After(START, acts).db
    decreases After(START, acts).txs.Keys
  {
    hide After, IsRun, Enabled, Next;
    if After(START, acts).txs == map[] {
      ends := [];
      assert acts + [] == acts;
    } else {
      var t :| t in After(START, acts).txs;
      RollbackIsReachable(acts, t);
      var rest := EveryoneRollsBack(acts + [Rollback(t)]);
      ends := [Rollback(t)] + rest;
      assert acts + ends == acts + [Rollback(t)] + rest;
    }
  }

  lemma SoloIsReachable(acts: seq<Action>, begin: Action, mid: seq<Action>, t: nat)
    requires IsRun(START, acts) && Solo(After(START, acts), begin, mid, t)
    ensures IsRun(START, acts + Whole(begin, mid, t))
    ensures After(START, acts + Whole(begin, mid, t)) == After(After(START, acts), Whole(begin, mid, t))
  {
    hide After, IsRun, Whole;
    RunsJoinUp(START, acts, Whole(begin, mid, t));
  }

  lemma ClaimLands(db: Db, input: RedeemInput, rid: string, eid: string, at: int, cost: int)
    requires UserExists(db, input.userId) && OnSale(db, input.rewardId, cost) && InStock(db, input.rewardId)
    requires Balance(db, input.userId) >= cost && rid !in db.redemptions && !HasId(db.ledger, eid)
    requires FindByKey(db, input.userId, input.key).None?
    ensures var (d, r) := Reserve(db, input, rid, eid, at);
      r.Ok? && rid in d.redemptions && HoldsClaim(d.redemptions[rid], input.userId, input.key)
  {
    hide ReserveWith, FindByKey, UserExists, HasId, Balance;
    var a := Attempt(input.key, rid, eid, at);
    AttemptDecided(db, input.userId, input.rewardId, a, cost);
    var seen := db.rewards[input.rewardId];
    ReserveShape(db, rid, ClaimRow(input, seen), seen.stock.Some?, eid, at);
  }
}
