/** Locks are always taken in one order, so no set of transactions ever waits in a circle. */
module Deadlock {
  import opened Schema
  import opened Earning
  import opened Ledger
  import opened Redeeming
  import opened Webhook
  import opened Atoms
  import opened Statements
  import opened Programs
  import opened System
  import opened Safety
  import opened Reachable
  import opened Shapes

  /** Claims and deliveries first, then the balance, then the ledger's keys, then the reward. */
  function Rank(r: Resource): (n: nat)
    ensures n <= 3
  {
    match r
    case ClaimKey(_, _) => 0
    case RedemptionRow(_) => 0
    case DeliveryKey(_, _) => 0
    case DeliveryRow(_) => 0
    case BalanceRow(_) => 1
    case LedgerKey(_, _) => 2
    case ReversesKey(_) => 2
    case EntryPk(_) => 2
    case RewardRow(_) => 3
  }

  /** Everything but a random primary key: two inserts of one of those collide, they do not queue. */
  predicate Contended(r: Resource) {
    !r.EntryPk?
  }

  /** t's next statement needs the lock r, which u holds. */
  ghost predicate WaitsOn(s: Sys, t: nat, u: nat, r: Resource) {
    && t in s.txs && u in s.txs && t != u && AtStatement(s.txs[t])
    && r in Locks(NextStmt(s.txs[t]), See(s.db, s.txs[t].work), s.txs[t].work)
    && Contended(r) && r in s.txs[u].work.locks
  }

  ghost predicate WaitsFor(s: Sys, t: nat, u: nat) {
    exists r :: WaitsOn(s, t, u, r)
  }

  // ----- Lock order of the programs -----

  function MayLock(s: Stmt): set<Resource> {
    match s
    case InsertBalance(u) => {BalanceRow(u)}
    case SelectBalance(u) => {BalanceRow(u)}
    case InsertEntry(e) => EntryLocks(e)
    case UpdateBalance(u, _, _) => {BalanceRow(u)}
    case InsertRedemption(rid, row) => {ClaimKey(row.userId, row.key), RedemptionRow(rid)}
    case SelectRedemption(rid) => {RedemptionRow(rid)}
    case SetFulfilled(rid, _) => {RedemptionRow(rid)}
    case SetFailed(rid, _) => {RedemptionRow(rid)}
    case DecrementStock(rw) => {RewardRow(rw)}
    case IncrementStock(rw) => {RewardRow(rw)}
    case InsertDelivery(did, d) => {DeliveryKey(d.partner, d.key), DeliveryRow(did)}
    case AlterDelivery(did, _) => {DeliveryRow(did)}
  }

  predicate MustLock(s: Stmt, r: Resource) {
    (s.SelectBalance? && r == BalanceRow(s.userId)) || (s.AlterDelivery? && r == DeliveryRow(s.did))
  }

  lemma LocksAreStatic(s: Stmt, v: Db, w: Work)
    ensures Locks(s, v, w) <= MayLock(s)
    ensures forall r :: MustLock(s, r) ==> r in Locks(s, v, w)
  {
    hide EntryLocks, Taken;
  }

  /** Statement j of the list asks only for locks it surely has, or ranked above every other lock taken before. */
  ghost predicate OrderedAt(log: seq<Stmt>, j: nat)
    requires j < |log|
  {
    forall r :: r in MayLock(log[j]) && Contended(r) ==>
      || (exists i :: 0 <= i < j && MustLock(log[i], r))
      || (forall i, q :: 0 <= i < j && q in MayLock(log[i]) && Contended(q) ==> q == r || Rank(q) < Rank(r))
  }

  ghost predicate Ordered(log: seq<Stmt>) {
    forall j :: 0 <= j < |log| ==> OrderedAt(log, j)
  }

  // The order, read off the statements.

  function Level(s: Stmt): nat {
    if OnBalance(s) then 1 else if s.InsertEntry? then 2 else if s.DecrementStock? || s.IncrementStock? then 3 else 0
  }

  predicate OnBalance(s: Stmt) {
    s.InsertBalance? || s.SelectBalance? || s.UpdateBalance?
  }

  predicate Below(a: Stmt, b: Stmt) {
    Level(a) < Level(b) || (OnBalance(a) && OnBalance(b) && a.userId == b.userId)
  }

  /** a took, for certain, the only lock b needs. */
  predicate Secures(a: Stmt, b: Stmt) {
    (a.SelectBalance? && OnBalance(b) && a.userId == b.userId)
    || (a.AlterDelivery? && b.AlterDelivery? && a.did == b.did)
  }

  predicate Keyless(s: Stmt) {
    s.InsertEntry? && s.e.eventId.None? && s.e.reversesId.None?
  }

  ghost predicate InOrder(log: seq<Stmt>, j: nat)
    requires j < |log|
  {
    || Keyless(log[j])
    || (exists i :: 0 <= i < j && Secures(log[i], log[j]))
    || (forall i :: 0 <= i < j ==> Below(log[i], log[j]))
  }

  lemma LevelIsRank(s: Stmt, r: Resource)
    requires r in MayLock(s) && Contended(r)
    ensures Rank(r) == Level(s) && !Keyless(s)
    ensures OnBalance(s) ==> r == BalanceRow(s.userId)
    ensures s.AlterDelivery? ==> r == DeliveryRow(s.did)
  {
  }

  lemma InOrderIsOrdered(log: seq<Stmt>, j: nat)
    requires j < |log| && InOrder(log, j)
    ensures OrderedAt(log, j)
  {
    hide MayLock, Rank;
    forall r | r in MayLock(log[j]) && Contended(r)
      ensures (exists i :: 0 <= i < j && MustLock(log[i], r))
        || (forall i, q :: 0 <= i < j && q in MayLock(log[i]) && Contended(q) ==> q == r || Rank(q) < Rank(r))
    {
      LevelIsRank(log[j], r);
      if i :| 0 <= i < j && Secures(log[i], log[j]) {
        assert MustLock(log[i], r);
      } else {
        forall i, q | 0 <= i < j && q in MayLock(log[i]) && Contended(q) ensures q == r || Rank(q) < Rank(r) {
          LevelIsRank(log[i], q);
          assert Below(log[i], log[j]);
        }
      }
    }
  }

  lemma AllInOrder(log: seq<Stmt>)
    requires forall j :: 0 <= j < |log| ==> InOrder(log, j)
    ensures Ordered(log)
  {
    hide InOrder, OrderedAt;
    forall j | 0 <= j < |log| ensures OrderedAt(log, j) {
      InOrderIsOrdered(log, j);
    }
  }

  lemma AppendOrdered(input: AppendInput, id: string, at: int)
    ensures Ordered(AppendProgram(input, id, at))
  {
    hide Ordered;
    var p := AppendProgram(input, id, at);
    assert Secures(p[1], p[3]);
    AllInOrder(p);
  }

  lemma ReserveOrdered(rid: string, row: Redemption, limited: bool, eid: string, at: int)
    ensures Ordered(Program(AtomReserve(rid, row, limited, eid, at)))
  {
    hide Ordered;
    var p := Program(AtomReserve(rid, row, limited, eid, at));
    var u := row.userId;
    var e := InsertEntry(NewRow(DebitInput(rid, row), eid, at));
    var tail := [InsertBalance(u), SelectBalance(u), e, UpdateBalance(u, -row.cost, true)];
    if limited {
      assert p == [InsertRedemption(rid, row), InsertBalance(u), SelectBalance(u), DecrementStock(row.rewardId)] + tail;
      assert Secures(p[2], p[4]) && Secures(p[2], p[5]) && Keyless(p[6]) && Secures(p[2], p[7]);
    } else {
      assert p == [InsertRedemption(rid, row), InsertBalance(u), SelectBalance(u)] + tail;
      assert Secures(p[2], p[3]) && Secures(p[2], p[4]) && Keyless(p[5]) && Secures(p[2], p[6]);
    }
    AllInOrder(p);
  }

  lemma CompensateOrdered(a: Atom)
    requires a.AtomCompensate?
    ensures Ordered(Program(a))
  {
    hide Ordered;
    var p := Program(a);
    var input := ReversalOf(a.original);
    var u := input.userId;
    assert p == [SetFailed(a.v.redemptionId, a.reason), InsertBalance(u), SelectBalance(u),
                 InsertEntry(NewRow(input, a.eid, a.at)), UpdateBalance(u, input.delta, false), IncrementStock(a.v.rewardId)];
    assert Secures(p[2], p[4]);
    AllInOrder(p);
  }

  /** Touch the delivery, then credit it. */
  lemma CreditOrdered(c: Change, did: string, input: AppendInput, eid: string, at: int)
    ensures Ordered([AlterDelivery(did, c)] + Program(AtomCredit(did, input, eid, at)))
  {
    hide Ordered;
    var p := [AlterDelivery(did, c)] + Program(AtomCredit(did, input, eid, at));
    var u := input.userId;
    assert p == [AlterDelivery(did, c), InsertBalance(u), SelectBalance(u), InsertEntry(NewRow(input, eid, at)),
                 UpdateBalance(u, input.delta, input.enforceNonNegative), AlterDelivery(did, Credited)];
    assert Secures(p[2], p[4]) && Secures(p[0], p[5]);
    AllInOrder(p);
  }

  /** A step that takes one kind of lock. */
  lemma SingleOrdered(a: Atom)
    requires a.AtomReplay? || a.AtomFulfil? || a.AtomArrive? || a.AtomMark?
    ensures Ordered(Program(a))
  {
  }

  lemma TwiceMarkedOrdered(did: string, c: Change, c': Change)
    ensures Ordered([AlterDelivery(did, c)] + [AlterDelivery(did, c')])
  {
    hide Ordered;
    var p := [AlterDelivery(did, c)] + [AlterDelivery(did, c')];
    assert Secures(p[0], p[1]);
    AllInOrder(p);
  }

  lemma StepOrdered(a: Atom)
    requires !a.AtomCredit?
    ensures Ordered(Program(a))
  {
    hide Ordered;
    match a
    case AtomAppend(input, id, at) => AppendOrdered(input, id, at);
    case AtomReserve(rid, row, limited, eid, at) => ReserveOrdered(rid, row, limited, eid, at);
    case AtomCompensate(_, _, _, _, _) => CompensateOrdered(a);
    case _ => SingleOrdered(a);
  }

  /** Everything the transaction will have issued once its current step is complete. */
  function Issued(tx: Tx): seq<Stmt>
    requires AtStatement(tx)
  {
    Flat(tx.done) + Program(tx.plan[0].a)
  }

  lemma ShapedIsOrdered(tx: Tx)
    requires Shaped(tx) && !tx.role.Sweep? && AtStatement(tx)
    ensures Ordered(Issued(tx))
  {
    hide Ordered;
    var a := tx.plan[0].a;
    if tx.done == [] {
      assert Issued(tx) == Program(a);
      StepOrdered(a);
    } else {
      var first := tx.done[0];
      assert tx.done[..0] == [];
      assert Flat(tx.done) == Flat([]) + Program(first) == [AlterDelivery(first.did, first.change)];
      if a.AtomCredit? {
        CreditOrdered(first.change, first.did, a.input, a.eid, a.at);
      } else {
        TwiceMarkedOrdered(first.did, first.change, a.change);
      }
    }
  }

  lemma {:induction false} RunLocks(log: seq<Stmt>, db: Db)
    requires Runs(NO_WORK, log, db)
    ensures forall r :: r in Run(NO_WORK, log, db).locks ==> exists i :: 0 <= i < |log| && r in MayLock(log[i])
    ensures forall i, r :: 0 <= i < |log| && MustLock(log[i], r) ==> r in Run(NO_WORK, log, db).locks
    decreases |log|
  {
    hide Can, MayLock, MustLock, Locks, Write, See;
    if log != [] {
      var init, s := log[..|log| - 1], log[|log| - 1];
      RunLocks(init, db);
      var w := Run(NO_WORK, init, db);
      LocksAreStatic(s, See(db, w), w);
      forall r | r in Run(NO_WORK, log, db).locks ensures exists i :: 0 <= i < |log| && r in MayLock(log[i]) {
        if r in w.locks {
          var i :| 0 <= i < |init| && r in MayLock(init[i]);
          assert r in MayLock(log[i]);
        } else {
          assert r in MayLock(log[|log| - 1]);
        }
      }
    }
  }

  /** A transaction only ever waits for a lock ranked above every contended lock it holds. */
  lemma WaitsUpwards(s: Sys, t: nat, r: Resource, q: Resource)
    requires SysInv(s) && ShapesOk(s) && t in s.txs && !s.txs[t].role.Sweep? && AtStatement(s.txs[t])
    requires r in Locks(NextStmt(s.txs[t]), See(s.db, s.txs[t].work), s.txs[t].work) && Contended(r)
    requires r !in s.txs[t].work.locks && q in s.txs[t].work.locks && Contended(q)
    ensures Rank(q) < Rank(r)
  {
    hide SysInv, PlanOk, DoneOk, Positioned, RoleOk, Shaped, ReplyOk, Locks, See, MayLock, Ordered, Rank, Run, Runs, Program, MustLock;
    var tx := s.txs[t];
    TxFacts(s, t);
    RunLocks(Log(tx), s.db);
    ShapedIsOrdered(tx);
    LogIsIssued(tx);
    LocksAreStatic(NextStmt(tx), See(s.db, tx.work), tx.work);
    var n := |Log(tx)|;
    OrderedHere(Issued(tx), n);
    var i :| 0 <= i < n && q in MayLock(Log(tx)[i]);
    assert q in MayLock(Issued(tx)[i]);
    if j :| 0 <= j < n && MustLock(Issued(tx)[j], r) {
      assert MustLock(Log(tx)[j], r);
    }
  }

  lemma OrderedHere(log: seq<Stmt>, n: nat)
    requires Ordered(log) && n < |log|
    ensures OrderedAt(log, n)
  {
    hide OrderedAt;
  }

  lemma LogIsIssued(tx: Tx)
    requires AtStatement(tx)
    ensures |Log(tx)| < |Issued(tx)| && Issued(tx)[|Log(tx)|] == NextStmt(tx)
    ensures forall i :: 0 <= i < |Log(tx)| ==> Issued(tx)[i] == Log(tx)[i]
  {
    hide Program;
  }

  // ----- No circle -----

  ghost predicate WaitPath(s: Sys, path: seq<nat>) {
    && (forall i :: 0 <= i < |path| ==> path[i] in s.txs && !s.txs[path[i]].role.Sweep?)
    && (forall i :: 0 <= i < |path| - 1 ==> WaitsFor(s, path[i], path[i + 1]))
  }

  /** The last link of a chain waits for a lock whose rank is at least the number of links before it. */
  lemma {:induction false} RanksRise(s: Sys, path: seq<nat>) returns (r: Resource)
    requires SysInv(s) && ShapesOk(s) && WaitPath(s, path) && |path| >= 2
    ensures WaitsOn(s, path[|path| - 2], path[|path| - 1], r) && Rank(r) >= |path| - 2
    decreases |path|
  {
    hide SysInv, ShapesOk, WaitsOn, Rank;
    var n := |path|;
    assert WaitsFor(s, path[n - 2], path[n - 1]);
    r :| WaitsOn(s, path[n - 2], path[n - 1], r);
    if n > 2 {
      var q := RanksRise(s, path[..n - 1]);
      LinkRises(s, path[n - 3], path[n - 2], path[n - 1], q, r);
    }
  }

  lemma LinkRises(s: Sys, t: nat, u: nat, v: nat, q: Resource, r: Resource)
    requires SysInv(s) && ShapesOk(s) && WaitsOn(s, t, u, q) && WaitsOn(s, u, v, r) && !s.txs[u].role.Sweep?
    ensures Rank(q) < Rank(r)
  {
    hide SysInv, ShapesOk, Locks, See, Rank;
    TxFacts(s, u);
    WaitsUpwards(s, u, r, q);
  }

  /** Outside backfills, a chain of waiting transactions has at most four links. */
  lemma WaitsAreShort(s: Sys, path: seq<nat>)
    requires SysInv(s) && ShapesOk(s) && WaitPath(s, path)
    ensures |path| <= 5
  {
    hide SysInv, ShapesOk, WaitsFor, WaitsOn;
    if |path| > 5 {
      var r := RanksRise(s, path[..6]);
    }
  }

  /** Backfills aside, no chain of waiting transactions comes back to where it began. */
  lemma NoWaitCycle(s: Sys, path: seq<nat>)
    requires SysInv(s) && ShapesOk(s) && WaitPath(s, path) && |path| >= 2
    ensures path[0] != path[|path| - 1]
    decreases 6 - |path|
  {
    hide SysInv, ShapesOk, WaitsFor;
    WaitsAreShort(s, path);
    if path[0] == path[|path| - 1] {
      NoWaitCycle(s, path + path[1..]);
    }
  }

  /** So no run ever reaches a circle of waiting transactions, whatever else is open. */
  lemma NoCircleIsReachable(acts: seq<Action>, path: seq<nat>)
    requires IsRun(START, acts) && WaitPath(After(START, acts), path) && |path| >= 2
    ensures path[0] != path[|path| - 1]
  {
    hide SysInv, Enabled, Next, After, IsRun, ShapesOk, WaitPath;
    StartHolds();
    StartShapes();
    RunKeeps(START, acts);
    RunKeepsShapes(START, acts);
    NoWaitCycle(After(START, acts), path);
  }

  ghost predicate Unblocked(s: Sys, t: nat) {
    t in s.txs && forall u :: !WaitsFor(s, t, u)
  }

  /** With no backfill open, some transaction is always free to run its next statement. */
  lemma SomeoneIsUnblocked(s: Sys, path: seq<nat>)
    requires SysInv(s) && ShapesOk(s) && WaitPath(s, path) && path != []
    requires forall t :: t in s.txs ==> !s.txs[t].role.Sweep?
    ensures exists t :: Unblocked(s, t)
    decreases 6 - |path|
  {
    hide SysInv, ShapesOk, WaitsFor;
    WaitsAreShort(s, path);
    var t := path[|path| - 1];
    if !Unblocked(s, t) {
      var u :| WaitsFor(s, t, u);
      WaitedForIsOpen(s, t, u);
      SomeoneIsUnblocked(s, path + [u]);
    }
  }

  lemma WaitedForIsOpen(s: Sys, t: nat, u: nat)
    requires WaitsFor(s, t, u)
    ensures u in s.txs
  {
  }

  /** In every reachable state with transactions open and no backfill among them, one is not waiting. */
  lemma NeverDeadlocked(acts: seq<Action>)
    requires IsRun(START, acts) && After(START, acts).txs != map[]
    requires forall t :: t in After(START, acts).txs ==> !After(START, acts).txs[t].role.Sweep?
    ensures exists t :: Unblocked(After(START, acts), t)
  {
    hide SysInv, Enabled, Next, After, IsRun, ShapesOk, Unblocked;
    var s := After(START, acts);
    StartHolds();
    StartShapes();
    RunKeeps(START, acts);
    RunKeepsShapes(START, acts);
    var t :| t in s.txs;
    SomeoneIsUnblocked(s, [t]);
  }

  lemma StartShapes()
    ensures ShapesOk(START)
  {
  }
}
