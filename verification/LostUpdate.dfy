/** Why the balance lock must span the read and the write: what two appends would do without it. */
module LostUpdate {
  import opened Schema
  import opened Ledger
  import opened Redeeming
  import opened Webhook
  import opened Atoms
  import opened Statements
  import opened Programs
  import opened System
  import opened Safety
  import opened Reachable
  import opened Shapes
  import opened Guarantees

  /** The uncommitted writes of a complete append of a new row, and the lock it must be holding. */
  lemma AppendWork(input: AppendInput, id: string, at: int, db: Db)
    requires Runs(NO_WORK, AppendProgram(input, id, at), db)
    requires FindKey(db.ledger, input.source, input.eventId).None?
    ensures var w := Run(NO_WORK, AppendProgram(input, id, at), db);
      && w.entries == [NewRow(input, id, at)]
      && w.balances == map[input.userId := Balance(db, input.userId) + input.delta]
      && w.redemptions == map[] && w.rewards == map[] && w.deliveries == map[]
      && BalanceRow(input.userId) in w.locks
  {
    SeeNothing(db);
    hide Runs, Run, See, Can, Exec, Shown, RowChecks, UserExists, HasId, HasReversal, FindKey;
    var u, e := input.userId, NewRow(input, id, at);
    var s1, s2, s3, s4 := InsertBalance(u), SelectBalance(u), InsertEntry(e), UpdateBalance(u, input.delta, input.enforceNonNegative);
    assert AppendProgram(input, id, at) == [s1] + ([s2] + ([s3] + ([s4] + [])));
    RunStep(NO_WORK, s1, [s2] + ([s3] + ([s4] + [])), db);
    LockSteps(u, db, NO_WORK);
    var w1 := Exec(s1, db, NO_WORK);
    RunStep(w1, s2, [s3] + ([s4] + []), db);
    ReadStep(u, db, w1);
    var w2 := Exec(s2, db, w1);
    RunStep(w2, s3, [s4] + [], db);
    InsertStep(e, db, w2);
    var w3 := Exec(s3, db, w2);
    RunStep(w3, s4, [], db);
    MoveStep(u, input.delta, input.enforceNonNegative, db, w3);
    RunNothing(Exec(s4, db, w3), db);
    assert BalanceRow(u) in w2.locks;
  }

  /** If two appends to one balance could both read it before either wrote, committing both would keep both
      rows but only the second balance: the cache would be off by exactly the first delta. */
  lemma WithoutTheLockAnUpdateIsLost(db: Db, a: AppendInput, ida: string, b: AppendInput, idb: string, at: int)
    requires BalancesMatch(db) && a.userId == b.userId
    requires Runs(NO_WORK, AppendProgram(a, ida, at), db) && Runs(NO_WORK, AppendProgram(b, idb, at), db)
    requires FindKey(db.ledger, a.source, a.eventId).None? && FindKey(db.ledger, b.source, b.eventId).None?
    ensures var first := See(db, Run(NO_WORK, AppendProgram(a, ida, at), db));
      var d := See(first, Run(NO_WORK, AppendProgram(b, idb, at), db));
      && d.ledger == db.ledger + [NewRow(a, ida, at), NewRow(b, idb, at)]
      && Balance(d, a.userId) - Sum(d.ledger, ByUser(a.userId)) == -a.delta
  {
    hide Runs, Run, FindKey;
    AppendWork(a, ida, at, db);
    AppendWork(b, idb, at, db);
    var u, ea, eb := a.userId, NewRow(a, ida, at), NewRow(b, idb, at);
    SumPush(db.ledger, ea, ByUser(u));
    SumPush(db.ledger + [ea], eb, ByUser(u));
    assert db.ledger + [ea] + [eb] == db.ledger + [ea, eb];
    assert Balance(db, u) == Sum(db.ledger, ByUser(u));
  }

  /** And no run ever lets two transactions get there: of two that hold a balance they have read, at most one exists. */
  lemma OneBalanceHolder(acts: seq<Action>, t: nat, u: nat, userId: string)
    requires IsRun(START, acts) && t in After(START, acts).txs && u in After(START, acts).txs && t != u
    requires BalanceRow(userId) in After(START, acts).txs[t].work.locks
    ensures BalanceRow(userId) !in After(START, acts).txs[u].work.locks
  {
    hide Valid, After, IsRun, TxInv, RoleOk, OwnerOk, ShapesOk;
    ReachableValid(acts);
  }
}
