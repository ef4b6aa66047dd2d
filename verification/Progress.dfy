/** The other direction of `Programs`: a step that succeeds can be run, statement by statement. */
module Progress {
  import opened Schema
  import opened Earning
  import opened Ledger
  import opened Redeeming
  import opened Webhook
  import opened Atoms
  import opened Statements
  import opened Programs
  import opened Safety

  lemma {:induction false} RunsJoin(w: Work, a: seq<Stmt>, b: seq<Stmt>, db: Db)
    requires Runs(w, a, db) && Runs(Run(w, a, db), b, db)
    ensures Runs(w, a + b, db)
    decreases |b|
  {
    hide Can, Exec;
    if b == [] {
      assert a + b == a;
    } else {
      var init := b[..|b| - 1];
      RunsJoin(w, a, init, db);
      RunConcat(w, a, init, db);
      assert (a + b)[..|a + b| - 1] == a + init;
    }
  }

  lemma RunsFirst(w: Work, s: Stmt, rest: seq<Stmt>, db: Db)
    requires Can(s, See(db, w), w) && Runs(Exec(s, db, w), rest, db)
    ensures Runs(w, [s] + rest, db)
  {
    hide Can, Exec;
    RunNothing(w, db);
    RunPush(w, [], s, db);
    assert [] + [s] == [s];
    RunsJoin(w, [s], rest, db);
  }

  lemma MayLockBalance(u: string, v: Db, w: Work)
    requires u in v.balances || UserExists(v, u)
    ensures Can(InsertBalance(u), v, w)
  {
    hide UserExists;
  }

  lemma MayReadBalance(u: string, v: Db, w: Work)
    requires u in v.balances
    ensures Can(SelectBalance(u), v, w)
  {
  }

  lemma MayInsert(e: Entry, v: Db, w: Work)
    requires RowChecks(e.delta, e.kind)
    requires Taken(v, e) || (!HasId(v.ledger, e.id) && RefersToRows(v, e)
                             && !(e.reversesId.Some? && HasReversal(v.ledger, e.reversesId.value)))
    ensures Can(InsertEntry(e), v, w)
  {
    hide RowChecks, Taken, HasId, HasReversal, RefersToRows;
  }

  lemma MayMove(u: string, delta: int, enforce: bool, v: Db, w: Work)
    requires w.inserted ==> u in v.balances && !(enforce && delta < 0 && w.held + delta < 0)
    ensures Can(UpdateBalance(u, delta, enforce), v, w)
  {
  }

  /** What a successful append found, in the terms its statements ask. */
  lemma AppendFound(v: Db, input: AppendInput, id: string, at: int)
    requires Append(v, input, id, at).1.Ok?
    ensures var m := Materialise(v, input.userId);
      var e := NewRow(input, id, at);
      && (input.userId in v.balances || UserExists(v, input.userId)) && input.userId in m.balances
      && RowChecks(e.delta, e.kind)
      && (!Taken(m, e) ==>
            && !HasId(m.ledger, e.id) && RefersToRows(m, e)
            && !(e.reversesId.Some? && HasReversal(m.ledger, e.reversesId.value))
            && !Overdraws(input, m.balances[input.userId]))
  {
    hide FindKey, HasId, HasReversal, RowChecks, UserExists;
  }

  lemma AppendRuns(w: Work, input: AppendInput, id: string, at: int, db: Db)
    requires Append(See(db, w), input, id, at).1.Ok?
    ensures Runs(w, AppendProgram(input, id, at), db)
  {
    hide See, Can, Exec, Append, RowChecks, Taken, HasId, HasReversal, RefersToRows, UserExists, Runs, Run;
    AppendFound(See(db, w), input, id, at);
    var u, e := input.userId, NewRow(input, id, at);
    var s1, s2, s3, s4 := InsertBalance(u), SelectBalance(u), InsertEntry(e), UpdateBalance(u, input.delta, input.enforceNonNegative);
    MayLockBalance(u, See(db, w), w);
    LockSteps(u, db, w);
    var w1 := Exec(s1, db, w);
    MayReadBalance(u, See(db, w1), w1);
    ReadStep(u, db, w1);
    var w2 := Exec(s2, db, w1);
    MayInsert(e, See(db, w2), w2);
    InsertStep(e, db, w2);
    var w3 := Exec(s3, db, w2);
    MayMove(u, input.delta, input.enforceNonNegative, See(db, w3), w3);
    var w4 := Exec(s4, db, w3);
    RunNothing(w4, db);
    RunsFirst(w3, s4, [], db);
    RunsFirst(w2, s3, [s4] + [], db);
    RunsFirst(w1, s2, [s3] + ([s4] + []), db);
    RunsFirst(w, s1, [s2] + ([s3] + ([s4] + [])), db);
    assert AppendProgram(input, id, at) == [s1] + ([s2] + ([s3] + ([s4] + [])));
  }

  /** What a successful reservation found. */
  lemma ReserveFound(v: Db, a: Atom)
    requires a.AtomReserve? && Succeeds(a, v)
    ensures var locked := Materialise(v.(redemptions := v.redemptions[a.rid := a.row]), a.row.userId);
      && a.rid !in v.redemptions && FindByKey(v, a.row.userId, a.row.key).None? && UserExists(v, a.row.userId)
      && (a.limited ==> TakeUnit(locked, a.row.rewardId).Some?)
      && Append(if a.limited then TakeUnit(locked, a.row.rewardId).value else locked, DebitInput(a.rid, a.row), a.eid, a.at).1.Ok?
  {
    hide FindByKey, UserExists, Append, TakeUnit, Materialise;
  }

  lemma MayClaim(rid: string, row: Redemption, v: Db, w: Work)
    requires rid !in v.redemptions && FindByKey(v, row.userId, row.key).None? && UserExists(v, row.userId)
    ensures Can(InsertRedemption(rid, row), v, w)
  {
    hide FindByKey, UserExists;
  }

  lemma MayTake(rw: string, v: Db, w: Work)
    requires TakeUnit(v, rw).Some?
    ensures Can(DecrementStock(rw), v, w)
  {
    hide TakeUnit;
  }

  lemma ReserveRuns(w: Work, a: Atom, db: Db)
    requires a.AtomReserve? && Succeeds(a, See(db, w))
    ensures Runs(w, Program(a), db)
  {
    hide See, Can, Exec, Succeeds, Append, AppendProgram, FindByKey, UserExists, TakeUnit, Runs, Run;
    var row := a.row;
    ReserveFound(See(db, w), a);
    var tail := AppendProgram(DebitInput(a.rid, row), a.eid, a.at);
    var s1, s2, s3 := InsertRedemption(a.rid, row), InsertBalance(row.userId), SelectBalance(row.userId);
    var stock := if a.limited then [DecrementStock(row.rewardId)] else [];
    MayClaim(a.rid, row, See(db, w), w);
    ClaimStep(a.rid, row, db, w);
    var w1 := Exec(s1, db, w);
    UserStillThere(See(db, w), See(db, w1), row.userId);
    MayLockBalance(row.userId, See(db, w1), w1);
    LockSteps(row.userId, db, w1);
    var w2 := Exec(s2, db, w1);
    MayReadBalance(row.userId, See(db, w2), w2);
    ReadStep(row.userId, db, w2);
    var w3 := Exec(s3, db, w2);
    if a.limited {
      MayTake(row.rewardId, See(db, w3), w3);
      UnitStep(row.rewardId, db, w3);
      AppendRuns(Exec(stock[0], db, w3), DebitInput(a.rid, row), a.eid, a.at, db);
      RunsFirst(w3, stock[0], tail, db);
    } else {
      assert stock + tail == tail;
      AppendRuns(w3, DebitInput(a.rid, row), a.eid, a.at, db);
    }
    RunsFirst(w2, s3, stock + tail, db);
    RunsFirst(w1, s2, [s3] + (stock + tail), db);
    RunsFirst(w, s1, [s2] + ([s3] + (stock + tail)), db);
    assert Program(a) == [s1] + ([s2] + ([s3] + (stock + tail)));
  }

  lemma UserStillThere(v: Db, v': Db, u: string)
    requires v'.users == v.users && UserExists(v, u)
    ensures UserExists(v', u)
  {
  }

  lemma CreditRuns(w: Work, a: Atom, db: Db)
    requires a.AtomCredit? && Succeeds(a, See(db, w))
    ensures Runs(w, Program(a), db)
  {
    hide See, Exec, AppendProgram, Append, Runs, Run;
    var body, mark := AppendProgram(a.input, a.eid, a.at), AlterDelivery(a.did, Credited);
    AppendRuns(w, a.input, a.eid, a.at, db);
    AppendBlock(w, a.input, a.eid, a.at, db);
    AppendTouchesTwoTables(See(db, w), a.input, a.eid, a.at);
    var w1 := Run(w, body, db);
    RunNothing(Exec(mark, db, w1), db);
    RunsFirst(w1, mark, [], db);
    assert [mark] + [] == [mark];
    RunsJoin(w, body, [mark], db);
  }

  /** What a compensation that did its work found. */
  lemma CompensateFound(v: Db, a: Atom)
    requires a.AtomCompensate? && Succeeds(a, v) && FindRow(v.ledger, a.v.entryId) == Some(a.original)
    ensures a.v.redemptionId in v.redemptions && v.redemptions[a.v.redemptionId].status == RESERVED
    ensures Append(MarkFailed(v, a.v.redemptionId, a.reason), ReversalOf(a.original), a.eid, a.at).1.Ok?
  {
    hide Append, ReversalOf, ReturnUnit;
  }

  lemma MayFail(rid: string, reason: string, v: Db, w: Work)
    requires rid in v.redemptions && v.redemptions[rid].status == RESERVED
    ensures Can(SetFailed(rid, reason), v, w)
  {
  }

  lemma MayReturn(rw: string, v: Db, w: Work)
    requires rw in v.rewards
    ensures Can(IncrementStock(rw), v, w)
  {
  }

  lemma FailStep(rid: string, reason: string, db: Db, w: Work)
    requires Can(SetFailed(rid, reason), See(db, w), w)
    ensures rid in See(db, w).redemptions
    ensures See(db, Exec(SetFailed(rid, reason), db, w)) == MarkFailed(See(db, w), rid, reason)
  {
    SeeExec(SetFailed(rid, reason), db, w);
    hide See;
  }

  lemma CompensateRuns(w: Work, a: Atom, db: Db)
    requires a.AtomCompensate? && Succeeds(a, See(db, w)) && a.v.rewardId in See(db, w).rewards
    requires FindRow(See(db, w).ledger, a.v.entryId) == Some(a.original)
    ensures Runs(w, Program(a), db)
  {
    hide See, Can, Exec, AppendProgram, Append, ReversalOf, Succeeds, Runs, Run;
    CompensateFound(See(db, w), a);
    var s1, s3 := SetFailed(a.v.redemptionId, a.reason), IncrementStock(a.v.rewardId);
    var body := AppendProgram(ReversalOf(a.original), a.eid, a.at);
    MayFail(a.v.redemptionId, a.reason, See(db, w), w);
    FailStep(a.v.redemptionId, a.reason, db, w);
    var w1 := Exec(s1, db, w);
    AppendRuns(w1, ReversalOf(a.original), a.eid, a.at, db);
    AppendBlock(w1, ReversalOf(a.original), a.eid, a.at, db);
    AppendTouchesTwoTables(See(db, w1), ReversalOf(a.original), a.eid, a.at);
    var w2 := Run(w1, body, db);
    MayReturn(a.v.rewardId, See(db, w2), w2);
    RunNothing(Exec(s3, db, w2), db);
    RunsFirst(w2, s3, [], db);
    assert [s3] + [] == [s3];
    RunsJoin(w1, body, [s3], db);
    RunsFirst(w, s1, body + [s3], db);
    assert Program(a) == [s1] + (body + [s3]);
  }

  lemma OneStatementRuns(w: Work, a: Atom, db: Db)
    requires OneStatement(a) && Succeeds(a, See(db, w))
    ensures Runs(w, Program(a), db)
  {
    hide See, FindDelivery, Alter, Runs, Run;
    var s := Program(a)[0];
    assert Can(s, See(db, w), w);
    RunNothing(Exec(s, db, w), db);
    RunsFirst(w, s, [], db);
    assert Program(a) == [s] + [];
  }

  lemma RewardStays(v: Db, a: Atom)
    requires Valid(v) && Admissible(a, v) && a.AtomCompensate?
    ensures a.v.rewardId in v.rewards && FindRow(v.ledger, a.v.entryId) == Some(a.original)
  {
    OriginalIsFound(a, v);
    hide LedgerState, DeliveryInv, RulesInv, TagsSound, ClaimsUnique, AllAccounted;
  }

  /** From any point of a transaction, the statements of a step can all run if and only if the step succeeds on
      what the transaction sees, and then they achieve it. */
  lemma ProgramRunsIffStepSucceeds(w: Work, a: Atom, db: Db)
    requires Valid(See(db, w)) && Admissible(a, See(db, w))
    ensures Runs(w, Program(a), db) <==> Succeeds(a, See(db, w))
    ensures Succeeds(a, See(db, w)) ==> See(db, Run(w, Program(a), db)) == Effect(a, See(db, w))
  {
    hide Valid, Admissible, Succeeds, Effect, Runs, Run, See, Program;
    if a.AtomCompensate? {
      RewardStays(See(db, w), a);
    }
    if Succeeds(a, See(db, w)) {
      match a
      case AtomAppend(_, _, _) => AppendAtomRuns(w, a, db);
      case AtomReserve(_, _, _, _, _) => ReserveRuns(w, a, db);
      case AtomCompensate(_, _, _, _, _) => CompensateRuns(w, a, db);
      case AtomCredit(_, _, _, _) => CreditRuns(w, a, db);
      case _ => OneStatementRuns(w, a, db);
    }
    if Runs(w, Program(a), db) {
      ProgramIsStep(w, a, db);
    }
  }

  lemma AppendAtomRuns(w: Work, a: Atom, db: Db)
    requires a.AtomAppend? && Succeeds(a, See(db, w))
    ensures Runs(w, Program(a), db)
  {
    hide See, Runs, Append, AppendProgram;
    AppendRuns(w, a.input, a.id, a.at, db);
  }
}
