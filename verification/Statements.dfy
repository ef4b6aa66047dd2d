/** The SQL statements the transactions are made of, under READ COMMITTED: each sees the committed
    database overlaid with its own transaction's writes, and takes row locks it keeps to the end. */
module Statements {
  import opened Schema
  import opened Earning
  import opened Ledger
  import opened Redeeming
  import opened Webhook
  import opened Atoms

  datatype Stmt =
    | InsertBalance(userId: string)
    | SelectBalance(userId: string)
    | InsertEntry(e: Entry)
    | UpdateBalance(userId: string, delta: int, enforce: bool)
    | InsertRedemption(rid: string, row: Redemption)
    | SelectRedemption(rid: string)
    | SetFulfilled(rid: string, ref: string)
    | SetFailed(rid: string, reason: string)
    | DecrementStock(rw: string)
    | IncrementStock(rw: string)
    | InsertDelivery(did: string, d: Delivery)
    | AlterDelivery(did: string, c: Change)

  predicate LedgerStmt(s: Stmt) {
    s.InsertBalance? || s.SelectBalance? || s.InsertEntry? || s.UpdateBalance?
  }

  predicate RedemptionStmt(s: Stmt) {
    s.InsertRedemption? || s.SelectRedemption? || s.SetFulfilled? || s.SetFailed?
  }

  /** What a lock protects: a row, or a value of a unique index. */
  datatype Resource =
    | BalanceRow(userId: string)
    | EntryPk(id: string)
    | LedgerKey(source: string, eventId: string)
    | ReversesKey(id: string)
    | ClaimKey(userId: string, key: string)
    | RedemptionRow(rid: string)
    | RewardRow(rw: string)
    | DeliveryKey(partner: string, key: string)
    | DeliveryRow(did: string)

  /** A transaction's uncommitted writes, the locks it holds, the balance it read under lock, and whether
      its last ledger insert inserted anything. */
  datatype Work = Work(
    entries: seq<Entry>,
    balances: map<string, int>,
    rewards: map<string, Reward>,
    redemptions: map<string, Redemption>,
    deliveries: map<string, Delivery>,
    locks: set<Resource>,
    held: int,
    inserted: bool)

  const NO_WORK := Work([], map[], map[], map[], map[], {}, 0, false)

  /** What the transaction sees, and what the database becomes if it commits. */
  function See(db: Db, w: Work): Db {
    Db(db.users, db.rules, db.ledger + w.entries, db.balances + w.balances, db.rewards + w.rewards,
       db.redemptions + w.redemptions, db.deliveries + w.deliveries)
  }

  predicate Taken(v: Db, e: Entry) {
    FindKey(v.ledger, e.source, e.eventId).Some?
  }

  /** The statement neither raises an error nor makes the service throw. */
  ghost predicate Can(s: Stmt, v: Db, w: Work) {
    match s
    case InsertBalance(u) => u in v.balances || UserExists(v, u)
    case SelectBalance(u) => u in v.balances
    case InsertEntry(e) =>
      && RowChecks(e.delta, e.kind)
      && (Taken(v, e) ||
          (!HasId(v.ledger, e.id)
           && !(e.reversesId.Some? && HasReversal(v.ledger, e.reversesId.value))
           && RefersToRows(v, e)))
    case UpdateBalance(u, delta, enforce) =>
      w.inserted ==> u in v.balances && !(enforce && delta < 0 && w.held + delta < 0)
    case InsertRedemption(rid, row) =>
      rid !in v.redemptions && FindByKey(v, row.userId, row.key).None? && UserExists(v, row.userId)
    case SelectRedemption(rid) => rid in v.redemptions
    case SetFulfilled(rid, _) => rid in v.redemptions
    case SetFailed(rid, _) => rid in v.redemptions && v.redemptions[rid].status == RESERVED
    case DecrementStock(rw) => TakeUnit(v, rw).Some?
    case IncrementStock(rw) => rw in v.rewards
    case InsertDelivery(did, d) => did !in v.deliveries && FindDelivery(v, d.partner, d.key).None?
    case AlterDelivery(did, c) => did in v.deliveries && (c == Reclaim ==> v.deliveries[did].status == UNMATCHED)
  }

  /** The foreign keys of point_transactions. */
  predicate RefersToRows(v: Db, e: Entry) {
    && (e.redemptionId.Some? ==> e.redemptionId.value in v.redemptions)
    && (e.ruleId.Some? ==> exists r | r in v.rules :: r.id == e.ruleId.value)
    && (e.reversesId.Some? ==> HasId(v.ledger, e.reversesId.value))
  }

  function EntryLocks(e: Entry): set<Resource> {
    {EntryPk(e.id)}
    + (if e.eventId.Some? then {LedgerKey(e.source, e.eventId.value)} else {})
    + (if e.reversesId.Some? then {ReversesKey(e.reversesId.value)} else {})
  }

  /** The locks a statement takes; it waits while another transaction holds one of them. */
  function Locks(s: Stmt, v: Db, w: Work): set<Resource> {
    match s
    case InsertBalance(u) => if u in v.balances then {} else {BalanceRow(u)}
    case SelectBalance(u) => {BalanceRow(u)}
    case InsertEntry(e) => if Taken(v, e) then {} else EntryLocks(e)
    case UpdateBalance(u, _, _) => if w.inserted then {BalanceRow(u)} else {}
    case InsertRedemption(rid, row) => {ClaimKey(row.userId, row.key), RedemptionRow(rid)}
    case SelectRedemption(rid) => {RedemptionRow(rid)}
    case SetFulfilled(rid, _) => {RedemptionRow(rid)}
    case SetFailed(rid, _) => {RedemptionRow(rid)}
    case DecrementStock(rw) => {RewardRow(rw)}
    case IncrementStock(rw) => if rw in v.rewards && v.rewards[rw].stock.Some? then {RewardRow(rw)} else {}
    case InsertDelivery(did, d) => {DeliveryKey(d.partner, d.key), DeliveryRow(did)}
    case AlterDelivery(did, _) => {DeliveryRow(did)}
  }

  /** The transaction's writes after the statement, locks aside. The balance write is absolute: it stores
      the value computed from the balance read earlier. */
  ghost function Write(s: Stmt, v: Db, w: Work): Work
    requires Can(s, v, w)
  {
    match s
    case InsertBalance(u) => if u in v.balances then w else w.(balances := w.balances[u := 0])
    case SelectBalance(u) => w.(held := v.balances[u])
    case InsertEntry(e) =>
      if Taken(v, e) then w.(inserted := false) else w.(entries := w.entries + [e], inserted := true)
    case UpdateBalance(u, delta, _) => if w.inserted then w.(balances := w.balances[u := w.held + delta]) else w
    case InsertRedemption(rid, row) => w.(redemptions := w.redemptions[rid := row])
    case SelectRedemption(_) => w
    case SetFulfilled(rid, ref) => w.(redemptions := w.redemptions[rid := Fulfil(v, rid, ref).redemptions[rid]])
    case SetFailed(rid, reason) => w.(redemptions := w.redemptions[rid := MarkFailed(v, rid, reason).redemptions[rid]])
    case DecrementStock(rw) => w.(rewards := w.rewards[rw := TakeUnit(v, rw).value.rewards[rw]])
    case IncrementStock(rw) => if v.rewards[rw].stock.Some? then w.(rewards := w.rewards[rw := ReturnUnit(v, rw).rewards[rw]]) else w
    case InsertDelivery(did, d) => w.(deliveries := w.deliveries[did := d])
    case AlterDelivery(did, c) => w.(deliveries := w.deliveries[did := Alter(v.deliveries[did], c)])
  }

  ghost function Exec(s: Stmt, db: Db, w: Work): Work
    requires Can(s, See(db, w), w)
  {
    Write(s, See(db, w), w).(locks := w.locks + Locks(s, See(db, w), w))
  }

  // ----- Running a list of statements -----

  ghost predicate Runs(w: Work, log: seq<Stmt>, db: Db)
    decreases |log|, 0
  {
    log == [] ||
    var init := log[..|log| - 1];
    Runs(w, init, db) && Can(log[|log| - 1], See(db, Run(w, init, db)), Run(w, init, db))
  }

  ghost function Run(w: Work, log: seq<Stmt>, db: Db): Work
    requires Runs(w, log, db)
    decreases |log|, 1
  {
    if log == [] then w
    else Exec(log[|log| - 1], db, Run(w, log[..|log| - 1], db))
  }

  lemma RunPush(w: Work, log: seq<Stmt>, s: Stmt, db: Db)
    requires Runs(w, log, db)
    ensures Runs(w, log + [s], db) <==> Can(s, See(db, Run(w, log, db)), Run(w, log, db))
    ensures Runs(w, log + [s], db) ==> Run(w, log + [s], db) == Exec(s, db, Run(w, log, db))
  {
    assert (log + [s])[..|log|] == log;
  }

  lemma {:induction false} RunConcat(w: Work, a: seq<Stmt>, b: seq<Stmt>, db: Db)
    requires Runs(w, a + b, db)
    ensures Runs(w, a, db) && Runs(Run(w, a, db), b, db)
    ensures Run(w, a + b, db) == Run(Run(w, a, db), b, db)
    decreases |b|
  {
    hide Can, Exec;
    if b == [] {
      assert a + b == a;
    } else {
      var init := b[..|b| - 1];
      assert (a + b)[..|a + b| - 1] == a + init;
      RunConcat(w, a, init, db);
    }
  }

  lemma LocksOnlyGrow(s: Stmt, db: Db, w: Work)
    requires Can(s, See(db, w), w)
    ensures w.locks <= Exec(s, db, w).locks
  {
  }

  // ----- What another transaction's commit leaves alone -----

  predicate SameClaim(a: Redemption, b: Redemption) {
    a.userId == b.userId && a.key == b.key
  }

  ghost predicate BalancesUndisturbed(db: Db, d: Db, locks: set<Resource>) {
    && (forall u :: u in db.balances ==> u in d.balances)
    && (forall u :: BalanceRow(u) in locks && u in d.balances ==> u in db.balances && db.balances[u] == d.balances[u])
  }

  ghost predicate LedgerUndisturbed(db: Db, d: Db, locks: set<Resource>) {
    && db.ledger <= d.ledger
    && (forall i :: |db.ledger| <= i < |d.ledger| ==> EntryLocks(d.ledger[i]) !! locks)
  }

  ghost predicate RewardsUndisturbed(db: Db, d: Db, locks: set<Resource>) {
    && (forall rw :: rw in db.rewards ==> rw in d.rewards && (d.rewards[rw].stock.Some? <==> db.rewards[rw].stock.Some?))
    && (forall rw :: RewardRow(rw) in locks && rw in d.rewards ==> rw in db.rewards && d.rewards[rw] == db.rewards[rw])
  }

  ghost predicate RedemptionsUndisturbed(db: Db, d: Db, locks: set<Resource>) {
    && (forall rid :: rid in db.redemptions ==> rid in d.redemptions && SameClaim(db.redemptions[rid], d.redemptions[rid]))
    && (forall rid :: RedemptionRow(rid) in locks && rid in d.redemptions ==>
          rid in db.redemptions && d.redemptions[rid] == db.redemptions[rid])
    && (forall rid :: rid in d.redemptions && rid !in db.redemptions ==>
          ClaimKey(d.redemptions[rid].userId, d.redemptions[rid].key) !in locks)
  }

  ghost predicate DeliveriesUndisturbed(db: Db, d: Db, locks: set<Resource>) {
    && (forall did :: did in db.deliveries ==> did in d.deliveries && SameDelivery(db.deliveries[did], d.deliveries[did]))
    && (forall did :: DeliveryRow(did) in locks && did in d.deliveries ==>
          did in db.deliveries && d.deliveries[did] == db.deliveries[did])
    && (forall did :: did in d.deliveries && did !in db.deliveries ==>
          DeliveryKey(d.deliveries[did].partner, d.deliveries[did].key) !in locks)
  }

  /** The committed database changed, but not in anything these locks protect, and nothing was deleted. */
  ghost predicate Undisturbed(db: Db, d: Db, locks: set<Resource>) {
    && (forall ref :: ref in db.users ==> ref in d.users && d.users[ref] == db.users[ref])
    && db.rules <= d.rules
    && BalancesUndisturbed(db, d, locks)
    && LedgerUndisturbed(db, d, locks)
    && RewardsUndisturbed(db, d, locks)
    && RedemptionsUndisturbed(db, d, locks)
    && DeliveriesUndisturbed(db, d, locks)
  }

  lemma FewerLocksUndisturbed(db: Db, d: Db, locks: set<Resource>, fewer: set<Resource>)
    requires Undisturbed(db, d, locks) && fewer <= locks
    ensures Undisturbed(db, d, fewer)
  {
    hide EntryLocks, SameDelivery, SameClaim;
  }
}
