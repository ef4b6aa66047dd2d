/** Each transaction as the statements it issues, and the proof that running them in order, statement by
    statement, is the atomic step. */
module Programs {
  import opened Schema
  import opened Earning
  import opened Ledger
  import opened Redeeming
  import opened Webhook
  import opened Atoms
  import opened Statements

  /** Lock, then claim, then check and move. */
  function AppendProgram(input: AppendInput, id: string, at: int): seq<Stmt> {
    [InsertBalance(input.userId),
     SelectBalance(input.userId),
     InsertEntry(NewRow(input, id, at)),
     UpdateBalance(input.userId, input.delta, input.enforceNonNegative)]
  }

  function ReserveHead(rid: string, row: Redemption, limited: bool): seq<Stmt> {
    [InsertRedemption(rid, row), InsertBalance(row.userId), SelectBalance(row.userId)]
    + (if limited then [DecrementStock(row.rewardId)] else [])
  }

  function Program(a: Atom): (p: seq<Stmt>)
    ensures p != []
  {
    match a
    case AtomAppend(input, id, at) => AppendProgram(input, id, at)
    case AtomReserve(rid, row, limited, eid, at) =>
      ReserveHead(rid, row, limited) + AppendProgram(DebitInput(rid, row), eid, at)
    case AtomReplay(rid) => [SelectRedemption(rid)]
    case AtomFulfil(rid, ref) => [SetFulfilled(rid, ref)]
    case AtomCompensate(v, reason, o, eid, at) =>
      [SetFailed(v.redemptionId, reason)] + AppendProgram(ReversalOf(o), eid, at) + [IncrementStock(v.rewardId)]
    case AtomArrive(did, d) => [InsertDelivery(did, d)]
    case AtomMark(did, c) => [AlterDelivery(did, c)]
    case AtomCredit(did, input, eid, at) => AppendProgram(input, eid, at) + [AlterDelivery(did, Credited)]
  }

  /** What a statement does to the database its transaction sees. */
  ghost function Shown(s: Stmt, v: Db, w: Work): Db
    requires Can(s, v, w)
  {
    match s
    case InsertBalance(u) => Materialise(v, u)
    case SelectBalance(_) => v
    case InsertEntry(e) => if Taken(v, e) then v else v.(ledger := v.ledger + [e])
    case UpdateBalance(u, delta, _) => if w.inserted then v.(balances := v.balances[u := w.held + delta]) else v
    case InsertRedemption(rid, row) => v.(redemptions := v.redemptions[rid := row])
    case SelectRedemption(_) => v
    case SetFulfilled(rid, ref) => Fulfil(v, rid, ref)
    case SetFailed(rid, reason) => MarkFailed(v, rid, reason)
    case DecrementStock(rw) => TakeUnit(v, rw).value
    case IncrementStock(rw) => ReturnUnit(v, rw)
    case InsertDelivery(did, d) => v.(deliveries := v.deliveries[did := d])
    case AlterDelivery(did, c) => Update(v, did, c)
  }

  lemma SeeBookkeeping(db: Db, w: Work, w': Work)
    requires w' == w.(locks := w'.locks, held := w'.held, inserted := w'.inserted)
    ensures See(db, w') == See(db, w)
  {
  }

  lemma SeeBalance(db: Db, w: Work, w': Work, u: string, x: int)
    requires w' == w.(balances := w.balances[u := x], locks := w'.locks)
    ensures See(db, w') == See(db, w).(balances := See(db, w).balances[u := x])
  {
    assert db.balances + w.balances[u := x] == (db.balances + w.balances)[u := x];
  }

  lemma SeeReward(db: Db, w: Work, w': Work, rw: string, x: Reward)
    requires w' == w.(rewards := w.rewards[rw := x], locks := w'.locks)
    ensures See(db, w') == See(db, w).(rewards := See(db, w).rewards[rw := x])
  {
    assert db.rewards + w.rewards[rw := x] == (db.rewards + w.rewards)[rw := x];
  }

  lemma SeeRedemption(db: Db, w: Work, w': Work, rid: string, x: Redemption)
    requires w' == w.(redemptions := w.redemptions[rid := x], locks := w'.locks)
    ensures See(db, w') == See(db, w).(redemptions := See(db, w).redemptions[rid := x])
  {
    assert db.redemptions + w.redemptions[rid := x] == (db.redemptions + w.redemptions)[rid := x];
  }

  lemma SeeDelivery(db: Db, w: Work, w': Work, did: string, x: Delivery)
    requires w' == w.(deliveries := w.deliveries[did := x], locks := w'.locks)
    ensures See(db, w') == See(db, w).(deliveries := See(db, w).deliveries[did := x])
  {
    assert db.deliveries + w.deliveries[did := x] == (db.deliveries + w.deliveries)[did := x];
  }

  lemma SeeEntry(db: Db, w: Work, w': Work, e: Entry)
    requires w' == w.(entries := w.entries + [e], locks := w'.locks, inserted := w'.inserted)
    ensures See(db, w') == See(db, w).(ledger := See(db, w).ledger + [e])
  {
    assert db.ledger + (w.entries + [e]) == (db.ledger + w.entries) + [e];
  }

  lemma SeeLedgerExec(s: Stmt, db: Db, w: Work)
    requires LedgerStmt(s) && Can(s, See(db, w), w)
    ensures See(db, Exec(s, db, w)) == Shown(s, See(db, w), w)
  {
    hide Taken, RefersToRows, RowChecks, Alter, Locks, See, TakeUnit, ReturnUnit, FindByKey, FindDelivery;
    var v, w' := See(db, w), Exec(s, db, w);
    match s
    case InsertBalance(u) => if u in v.balances { SeeBookkeeping(db, w, w'); } else { SeeBalance(db, w, w', u, 0); }
    case SelectBalance(_) => SeeBookkeeping(db, w, w');
    case InsertEntry(e) => if Taken(v, e) { SeeBookkeeping(db, w, w'); } else { SeeEntry(db, w, w', e); }
    case UpdateBalance(u, delta, _) => if w.inserted { SeeBalance(db, w, w', u, w.held + delta); } else { SeeBookkeeping(db, w, w'); }
    case _ =>
  }

  lemma SeeOtherExec(s: Stmt, db: Db, w: Work)
    requires !LedgerStmt(s) && Can(s, See(db, w), w)
    ensures See(db, Exec(s, db, w)) == Shown(s, See(db, w), w)
  {
    hide Taken, RefersToRows, RowChecks, Alter, Locks, See, FindByKey, FindDelivery;
    var v, w' := See(db, w), Exec(s, db, w);
    match s
    case InsertRedemption(rid, row) => SeeRedemption(db, w, w', rid, row);
    case SelectRedemption(_) => SeeBookkeeping(db, w, w');
    case SetFulfilled(rid, _) => SeeRedemption(db, w, w', rid, w'.redemptions[rid]);
    case SetFailed(rid, _) => SeeRedemption(db, w, w', rid, w'.redemptions[rid]);
    case DecrementStock(rw) => SeeReward(db, w, w', rw, w'.rewards[rw]);
    case IncrementStock(rw) => if v.rewards[rw].stock.Some? { SeeReward(db, w, w', rw, w'.rewards[rw]); } else { SeeBookkeeping(db, w, w'); }
    case InsertDelivery(did, d) => SeeDelivery(db, w, w', did, d);
    case AlterDelivery(did, _) => SeeDelivery(db, w, w', did, w'.deliveries[did]);
    case _ =>
  }

  lemma SeeExec(s: Stmt, db: Db, w: Work)
    requires Can(s, See(db, w), w)
    ensures See(db, Exec(s, db, w)) == Shown(s, See(db, w), w)
  {
    hide Can, Exec, Shown, See;
    if LedgerStmt(s) {
      SeeLedgerExec(s, db, w);
    } else {
      SeeOtherExec(s, db, w);
    }
  }

  /** Peel the first statement off a run. */
  lemma RunStep(w: Work, s: Stmt, rest: seq<Stmt>, db: Db)
    requires Runs(w, [s] + rest, db)
    ensures Can(s, See(db, w), w) && See(db, Exec(s, db, w)) == Shown(s, See(db, w), w)
    ensures Runs(Exec(s, db, w), rest, db) && Run(w, [s] + rest, db) == Run(Exec(s, db, w), rest, db)
  {
    hide Can, Exec, Shown;
    RunConcat(w, [s], rest, db);
    assert [s][..0] == [];
    assert Run(w, [s], db) == Exec(s, db, w);
    SeeExec(s, db, w);
  }

  /** The first two statements of an append: the balance row exists, and its value is held under its lock. */
  lemma LockSteps(u: string, db: Db, w: Work)
    requires Can(InsertBalance(u), See(db, w), w)
    ensures var w1 := Exec(InsertBalance(u), db, w);
      var v := See(db, w);
      && (u in v.balances || UserExists(v, u))
      && See(db, w1) == Materialise(v, u) && w1.entries == w.entries && w1.inserted == w.inserted
      && w1 == w.(balances := w1.balances, locks := w1.locks)
      && (u in v.balances ==> w1.balances == w.balances)
      && (u !in v.balances ==> w1.balances == w.balances[u := 0])
  {
    SeeExec(InsertBalance(u), db, w);
    hide See, EntryLocks, Taken, RefersToRows, RowChecks, UserExists;
  }

  lemma ReadStep(u: string, db: Db, w: Work)
    requires Can(SelectBalance(u), See(db, w), w)
    ensures var w1 := Exec(SelectBalance(u), db, w);
      && u in See(db, w).balances && See(db, w1) == See(db, w)
      && w1 == w.(held := See(db, w).balances[u], locks := w.locks + {BalanceRow(u)})
  {
    SeeExec(SelectBalance(u), db, w);
    hide See, EntryLocks, Taken, RefersToRows, RowChecks;
  }

  lemma InsertStep(e: Entry, db: Db, w: Work)
    requires Can(InsertEntry(e), See(db, w), w)
    ensures var w1 := Exec(InsertEntry(e), db, w);
      var v := See(db, w);
      && RowChecks(e.delta, e.kind)
      && w1 == w.(entries := w1.entries, locks := w1.locks, inserted := w1.inserted)
      && w1.inserted == !Taken(v, e) && w.locks <= w1.locks
      && (Taken(v, e) ==> See(db, w1) == v && w1.entries == w.entries)
      && (!Taken(v, e) ==> See(db, w1) == v.(ledger := v.ledger + [e]) && w1.entries == w.entries + [e]
                           && !HasId(v.ledger, e.id) && RefersToRows(v, e)
                           && !(e.reversesId.Some? && HasReversal(v.ledger, e.reversesId.value)))
  {
    SeeExec(InsertEntry(e), db, w);
    hide See, EntryLocks, Taken, RefersToRows, RowChecks, HasId, HasReversal;
  }

  lemma MoveStep(u: string, delta: int, enforce: bool, db: Db, w: Work)
    requires Can(UpdateBalance(u, delta, enforce), See(db, w), w)
    ensures var w1 := Exec(UpdateBalance(u, delta, enforce), db, w);
      var v := See(db, w);
      && w.locks <= w1.locks && w1 == w.(balances := w1.balances, locks := w1.locks)
      && (w.inserted ==> u in v.balances && !(enforce && delta < 0 && w.held + delta < 0)
                         && See(db, w1) == v.(balances := v.balances[u := w.held + delta])
                         && w1.balances == w.balances[u := w.held + delta])
      && (!w.inserted ==> See(db, w1) == v && w1.balances == w.balances)
  {
    SeeExec(UpdateBalance(u, delta, enforce), db, w);
    hide See, EntryLocks, Taken, RefersToRows, RowChecks;
  }

  /** The four statements of an append, run to the end, are the atomic append. */
  lemma AppendBlock(w: Work, input: AppendInput, id: string, at: int, db: Db)
    requires Runs(w, AppendProgram(input, id, at), db)
    ensures Append(See(db, w), input, id, at).1.Ok?
    ensures See(db, Run(w, AppendProgram(input, id, at), db)) == Append(See(db, w), input, id, at).0
  {
    hide Runs, Run, See, Can, Exec, Shown, RowChecks, UserExists, HasId, HasReversal, FindKey;
    var u, e := input.userId, NewRow(input, id, at);
    var s1, s2, s3, s4 := InsertBalance(u), SelectBalance(u), InsertEntry(e), UpdateBalance(u, input.delta, input.enforceNonNegative);
    assert AppendProgram(input, id, at) == [s1] + ([s2] + ([s3] + ([s4] + [])));
    RunStep(w, s1, [s2] + ([s3] + ([s4] + [])), db);
    LockSteps(u, db, w);
    var w1 := Exec(s1, db, w);
    RunStep(w1, s2, [s3] + ([s4] + []), db);
    ReadStep(u, db, w1);
    var w2 := Exec(s2, db, w1);
    RunStep(w2, s3, [s4] + [], db);
    InsertStep(e, db, w2);
    var w3 := Exec(s3, db, w2);
    RunStep(w3, s4, [], db);
    MoveStep(u, input.delta, input.enforceNonNegative, db, w3);
    RunNothing(Exec(s4, db, w3), db);
  }

  lemma RunNothing(w: Work, db: Db)
    ensures Runs(w, [], db) && Run(w, [], db) == w
  {
  }

  /** What a program run from any state achieves: the atomic step, on what the transaction sees. */
  ghost predicate Achieves(w: Work, a: Atom, db: Db)
    requires Runs(w, Program(a), db)
  {
    Succeeds(a, See(db, w)) && See(db, Run(w, Program(a), db)) == Effect(a, See(db, w))
  }

  lemma RunOne(w: Work, s: Stmt, db: Db)
    requires Runs(w, [s], db)
    ensures Can(s, See(db, w), w) && Run(w, [s], db) == Exec(s, db, w)
    ensures See(db, Run(w, [s], db)) == Shown(s, See(db, w), w)
  {
    assert [s] == [s] + [];
    RunStep(w, s, [], db);
    RunNothing(Exec(s, db, w), db);
  }

  lemma ClaimStep(rid: string, row: Redemption, db: Db, w: Work)
    requires Can(InsertRedemption(rid, row), See(db, w), w)
    ensures var v := See(db, w);
      && rid !in v.redemptions && FindByKey(v, row.userId, row.key).None? && UserExists(v, row.userId)
      && See(db, Exec(InsertRedemption(rid, row), db, w)) == v.(redemptions := v.redemptions[rid := row])
  {
    SeeExec(InsertRedemption(rid, row), db, w);
    hide See, FindByKey, UserExists, EntryLocks;
  }

  lemma UnitStep(rw: string, db: Db, w: Work)
    requires Can(DecrementStock(rw), See(db, w), w)
    ensures TakeUnit(See(db, w), rw).Some?
    ensures See(db, Exec(DecrementStock(rw), db, w)) == TakeUnit(See(db, w), rw).value
  {
    SeeExec(DecrementStock(rw), db, w);
    hide See, TakeUnit, EntryLocks;
  }

  lemma ReserveBlock(w: Work, a: Atom, db: Db)
    requires a.AtomReserve? && Runs(w, Program(a), db)
    ensures Achieves(w, a, db)
  {
    hide Runs, Run, See, Can, Exec, Shown, AppendProgram, Append, FindByKey, UserExists, TakeUnit;
    var row := a.row;
    var tail := AppendProgram(DebitInput(a.rid, row), a.eid, a.at);
    var s1, s2, s3 := InsertRedemption(a.rid, row), InsertBalance(row.userId), SelectBalance(row.userId);
    var stock := if a.limited then [DecrementStock(row.rewardId)] else [];
    assert Program(a) == [s1] + ([s2] + ([s3] + (stock + tail)));
    RunStep(w, s1, [s2] + ([s3] + (stock + tail)), db);
    ClaimStep(a.rid, row, db, w);
    var w1 := Exec(s1, db, w);
    RunStep(w1, s2, [s3] + (stock + tail), db);
    LockSteps(row.userId, db, w1);
    var w2 := Exec(s2, db, w1);
    RunStep(w2, s3, stock + tail, db);
    ReadStep(row.userId, db, w2);
    var w3 := Exec(s3, db, w2);
    if a.limited {
      RunStep(w3, stock[0], tail, db);
      UnitStep(row.rewardId, db, w3);
      AppendBlock(Exec(stock[0], db, w3), DebitInput(a.rid, row), a.eid, a.at, db);
    } else {
      assert stock + tail == tail;
      AppendBlock(w3, DebitInput(a.rid, row), a.eid, a.at, db);
    }
  }

  lemma CompensateBlock(w: Work, a: Atom, db: Db)
    requires a.AtomCompensate? && Runs(w, Program(a), db)
    requires FindRow(See(db, w).ledger, a.v.entryId) == Some(a.original)
    ensures Achieves(w, a, db)
  {
    hide Runs, Run, See, AppendProgram, Append, ReversalOf;
    var s1, s3 := SetFailed(a.v.redemptionId, a.reason), IncrementStock(a.v.rewardId);
    var body := AppendProgram(ReversalOf(a.original), a.eid, a.at);
    assert Program(a) == [s1] + (body + [s3]);
    RunStep(w, s1, body + [s3], db);
    var w1 := Exec(s1, db, w);
    RunConcat(w1, body, [s3], db);
    AppendBlock(w1, ReversalOf(a.original), a.eid, a.at, db);
    RunOne(Run(w1, body, db), s3, db);
  }

  lemma CreditBlock(w: Work, a: Atom, db: Db)
    requires a.AtomCredit? && Runs(w, Program(a), db)
    ensures Achieves(w, a, db)
  {
    hide Runs, Run, See, AppendProgram, Append;
    var body := AppendProgram(a.input, a.eid, a.at);
    RunConcat(w, body, [AlterDelivery(a.did, Credited)], db);
    AppendBlock(w, a.input, a.eid, a.at, db);
    RunOne(Run(w, body, db), AlterDelivery(a.did, Credited), db);
    AppendTouchesTwoTables(See(db, w), a.input, a.eid, a.at);
  }

  predicate OneStatement(a: Atom) {
    a.AtomReplay? || a.AtomFulfil? || a.AtomArrive? || a.AtomMark?
  }

  lemma OneStatementBlock(w: Work, a: Atom, db: Db)
    requires OneStatement(a) && Runs(w, Program(a), db)
    ensures Achieves(w, a, db)
  {
    hide Runs, Run, See, Exec, FindDelivery, Alter;
    match a
    case AtomReplay(rid) => RunOne(w, SelectRedemption(rid), db);
    case AtomFulfil(rid, ref) => RunOne(w, SetFulfilled(rid, ref), db);
    case AtomArrive(did, d) => RunOne(w, InsertDelivery(did, d), db);
    case AtomMark(did, c) => RunOne(w, AlterDelivery(did, c), db);
    case _ =>
  }

  lemma AppendAchieves(w: Work, a: Atom, db: Db)
    requires a.AtomAppend? && Runs(w, Program(a), db)
    ensures Achieves(w, a, db)
  {
    hide Runs, Run, See, AppendProgram, Append;
    AppendBlock(w, a.input, a.id, a.at, db);
  }

  /** Statement by statement, every program is its atomic step, from whatever its transaction did before. */
  lemma ProgramIsStep(w: Work, a: Atom, db: Db)
    requires Runs(w, Program(a), db)
    requires a.AtomCompensate? ==> FindRow(See(db, w).ledger, a.v.entryId) == Some(a.original)
    ensures Achieves(w, a, db)
  {
    hide Runs, Achieves, Program, See;
    match a
    case AtomAppend(_, _, _) => AppendAchieves(w, a, db);
    case AtomReserve(_, _, _, _, _) => ReserveBlock(w, a, db);
    case AtomCompensate(_, _, _, _, _) => CompensateBlock(w, a, db);
    case AtomCredit(_, _, _, _) => CreditBlock(w, a, db);
    case _ => OneStatementBlock(w, a, db);
  }
}
