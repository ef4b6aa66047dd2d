/** Any number of transactions, interleaved statement by statement, rolled back or crashed at any point. */
module System {
  import opened Schema
  import opened Earning
  import opened Ledger
  import opened Redeeming
  import opened Webhook
  import opened Atoms
  import opened Statements
  import opened Stability
  import opened Programs

  /** A read that takes no lock; its answer decides what the transaction does next. */
  datatype Query =
    | AskPrior(input: RedeemInput, rid: string, eid: string, at: int)
    | AskReward(input: RedeemInput, rid: string, eid: string, at: int)
    | AskHolder(claim: Atom, attempt: nat)
    | AskBody(did: string, now: int, eid: string)
    | AskPrice(did: string, now: int, eid: string)

  /** What a transaction still has to do. `attempt` counts the inserts of an idempotency claim. */
  datatype Item = Do(a: Atom, attempt: nat) | Ask(q: Query)

  /** The redemption a replayed request is answered with, as it stood when it was read: under its row lock if the
      request had to wait for the key, without one if it found the key taken when it came. */
  datatype Answered = Answered(userId: string, key: string, rid: string, row: Redemption)

  /** Whether a transaction settles a redemption, and how. */
  datatype Role = Plain | Sweep | Fulfilling(rid: string) | Compensating(rid: string)

  /** An open transaction: steps completed, steps to come, statements of the current step already issued. */
  datatype Tx = Tx(done: seq<Atom>, plan: seq<Item>, k: nat, work: Work, reply: Option<Answered>, role: Role)

  /** The one caller that claimed a redemption and will settle it. Once fulfilment has failed it may only compensate. */
  datatype Owner = Owner(v: Reservation, failing: bool)

  datatype Sys = Sys(db: Db, txs: map<nat, Tx>, owners: map<string, Owner>)

  datatype Edit =
    | AddUser(ref: string, userId: string)
    | AddRule(rule: Rule)
    | AddReward(rw: string, reward: Reward)
    | EditReward(rw: string, name: string, cost: int, active: bool)

  datatype Action =
    | Open(t: nat, plan: seq<Item>, sweep: bool)
    | Answer(t: nat)
    | Advance(t: nat)
    | Miss(t: nat)
    | Commit(t: nat)
    | Rollback(t: nat)
    | OpenFulfil(t: nat, rid: string, ref: string)
    | OpenCompensate(t: nat, rid: string, reason: string, eid: string, at: int)
    | Abandon(rid: string)
    | Crash
    | Change(e: Edit)

  const START := Sys(EMPTY_DB, map[], map[])

  // ----- Opening -----

  function NewTx(plan: seq<Item>, role: Role): Tx {
    Tx([], plan, 0, NO_WORK, None, role)
  }

  /** A backfill over a candidate list that may be stale when its claims run. */
  function SweepPlan(dids: seq<string>, clock: string -> int, ids: string -> string): seq<Item> {
    if dids == [] then []
    else
      var first := [Do(AtomMark(dids[0], Reclaim), 1), Ask(AskBody(dids[0], clock(dids[0]), ids(dids[0])))];
      first + SweepPlan(dids[1..], clock, ids)
  }

  ghost predicate IsSweep(db: Db, plan: seq<Item>) {
    exists dids: seq<string>, clock: string -> int, ids: string -> string ::
      plan == SweepPlan(dids, clock, ids) && forall did :: did in dids ==> did in db.deliveries
  }

  /** The transactions the service opens, redemption settlement aside. */
  ghost predicate MayOpen(db: Db, plan: seq<Item>, sweep: bool) {
    if sweep then IsSweep(db, plan)
    else |plan| == 1 && match plan[0]
      case Do(AtomAppend(input, id, at), _) => Admissible(AtomAppend(input, id, at), db)
      case Do(AtomArrive(did, d), _) => exists partner, body, at :: d == NewDelivery(partner, body, at)
      case Do(AtomMark(did, c), _) => c == Fail && did in db.deliveries
      case Ask(AskPrior(_, _, _, _)) => true
      case Ask(AskBody(did, _, _)) => did in db.deliveries
      case _ => false
  }

  // ----- Unlocked reads -----

  ghost predicate Answerable(q: Query, v: Db) {
    match q
    case AskPrior(_, _, _, _) => true
    case AskReward(input, _, _, _) => input.rewardId in v.rewards && v.rewards[input.rewardId].active
    case AskHolder(claim, attempt) =>
      claim.AtomReserve? && (FindByKey(v, claim.row.userId, claim.row.key).Some? || attempt < 2)
    case AskBody(did, _, _) => did in v.deliveries
    case AskPrice(did, _, _) => did in v.deliveries && Acceptable(v.deliveries[did].body)
  }

  ghost function NextItems(q: Query, v: Db): seq<Item>
    requires Answerable(q, v)
  {
    match q
    case AskPrior(input, rid, eid, at) =>
      if FindByKey(v, input.userId, input.key).Some? then [] else [Ask(AskReward(input, rid, eid, at))]
    case AskReward(input, rid, eid, at) =>
      var seen := v.rewards[input.rewardId];
      [Do(AtomReserve(rid, ClaimRow(input, seen), seen.stock.Some?, eid, at), 1)]
    case AskHolder(claim, attempt) =>
      var holder := FindByKey(v, claim.row.userId, claim.row.key);
      if holder.Some? then [Do(AtomReplay(holder.value), 1)] else [Do(claim, attempt + 1)]
    case AskBody(did, now, eid) =>
      var body := v.deliveries[did].body;
      if !Acceptable(body) then [Do(AtomMark(did, Reject), 1)]
      else [Do(AtomMark(did, Touch(body.userRef, body.activityType)), 1), Ask(AskPrice(did, now, eid))]
    case AskPrice(did, now, eid) =>
      var body := v.deliveries[did].body;
      if !Fresh(body.occurredAt, now) then [Do(AtomMark(did, Reject), 1)]
      else if body.userRef !in v.users then [Do(AtomMark(did, Park(UNKNOWN_USER)), 1)]
      else
        var rule := ResolveRule(v.rules, body.activityType, body.occurredAt);
        if rule.None? then [Do(AtomMark(did, Park(NO_RULE)), 1)]
        else [Do(AtomCredit(did, CreditInput(v.deliveries[did].partner, body.eventId, v.users[body.userRef], rule.value), eid, now), 1)]
  }

  ghost function NextReply(q: Query, v: Db, reply: Option<Answered>): Option<Answered>
    requires Answerable(q, v)
  {
    match q
    case AskPrior(input, _, _, _) =>
      var prior := FindByKey(v, input.userId, input.key);
      if prior.Some? then Some(Answered(input.userId, input.key, prior.value, v.redemptions[prior.value])) else reply
    case AskHolder(claim, _) =>
      var holder := FindByKey(v, claim.row.userId, claim.row.key);
      if holder.Some? then Some(Answered(claim.row.userId, claim.row.key, holder.value, v.redemptions[holder.value])) else reply
    case _ => reply
  }

  // ----- Locks and conditional statements -----

  ghost predicate HeldByOther(s: Sys, t: nat, r: Resource) {
    exists u :: u in s.txs && u != t && r in s.txs[u].work.locks
  }

  /** A conditional first statement that affects no row. A claim that meets an uncommitted rival may also
      report no row, which is why the service looks again and retries once. */
  ghost predicate MayMiss(s: Sys, t: nat)
    requires t in s.txs
  {
    var tx := s.txs[t];
    var v := See(s.db, tx.work);
    tx.plan != [] && tx.k == 0 && tx.plan[0].Do? && match tx.plan[0].a
      case AtomReserve(_, row, _, _, _) =>
        FindByKey(v, row.userId, row.key).Some? || HeldByOther(s, t, ClaimKey(row.userId, row.key))
      case AtomCompensate(r, _, _, _, _) =>
        r.redemptionId in v.redemptions && v.redemptions[r.redemptionId].status != RESERVED
        && !HeldByOther(s, t, RedemptionRow(r.redemptionId))
      case AtomArrive(_, d) => FindDelivery(s.db, d.partner, d.key).Some?
      case AtomMark(did, c) =>
        c == Reclaim && did in v.deliveries && v.deliveries[did].status != UNMATCHED
        && !HeldByOther(s, t, DeliveryRow(did))
      case _ => false
  }

  ghost function MissPlan(s: Sys, t: nat): seq<Item>
    requires t in s.txs && MayMiss(s, t)
  {
    var tx := s.txs[t];
    match tx.plan[0].a
    case AtomReserve(_, _, _, _, _) => [Ask(AskHolder(tx.plan[0].a, tx.plan[0].attempt))] + tx.plan[1..]
    case AtomCompensate(_, _, _, _, _) => tx.plan[1..]
    case AtomArrive(_, d) => [Do(AtomMark(FindDelivery(s.db, d.partner, d.key).value, Bump), 1)] + tx.plan[1..]
    case AtomMark(_, _) => if |tx.plan| >= 2 then tx.plan[2..] else []
    case _ => []
  }

  predicate AtStatement(tx: Tx) {
    tx.plan != [] && tx.plan[0].Do? && tx.k < |Program(tx.plan[0].a)|
  }

  function NextStmt(tx: Tx): Stmt
    requires AtStatement(tx)
  {
    Program(tx.plan[0].a)[tx.k]
  }

  ghost predicate MayAdvance(s: Sys, t: nat)
    requires t in s.txs
  {
    var tx := s.txs[t];
    && AtStatement(tx)
    && Can(NextStmt(tx), See(s.db, tx.work), tx.work)
    && forall r :: r in Locks(NextStmt(tx), See(s.db, tx.work), tx.work) ==> !HeldByOther(s, t, r)
  }

  /** A request that waited for its key is answered from the row its locking read returns. */
  function Relocked(reply: Option<Answered>, a: Atom, v: Db): Option<Answered> {
    if a.AtomReplay? && reply.Some? && a.rid in v.redemptions then Some(reply.value.(row := v.redemptions[a.rid])) else reply
  }

  ghost function Advanced(db: Db, tx: Tx): Tx
    requires AtStatement(tx) && Can(NextStmt(tx), See(db, tx.work), tx.work)
  {
    var work := Exec(NextStmt(tx), db, tx.work);
    if tx.k + 1 < |Program(tx.plan[0].a)| then tx.(k := tx.k + 1, work := work)
    else
      tx.(done := tx.done + [tx.plan[0].a], plan := tx.plan[1..], k := 0, work := work,
          reply := Relocked(tx.reply, tx.plan[0].a, See(db, work)))
  }

  // ----- Edits -----

  ghost predicate MayEdit(s: Sys, e: Edit) {
    match e
    case AddUser(ref, _) => ref !in s.db.users
    case AddRule(rule) => RulesInv(s.db.rules + [rule])
    case AddReward(rw, reward) =>
      && rw !in s.db.rewards && reward.cost > 0 && (reward.stock.Some? ==> reward.stock.value >= 0)
      && forall t :: t in s.txs ==> RewardRow(rw) !in s.txs[t].work.locks
    case EditReward(rw, _, cost, _) =>
      rw in s.db.rewards && cost > 0 && forall t :: t in s.txs ==> RewardRow(rw) !in s.txs[t].work.locks
  }

  function Edited(db: Db, e: Edit): Db {
    match e
    case AddUser(ref, userId) => db.(users := db.users[ref := userId])
    case AddRule(rule) => db.(rules := db.rules + [rule])
    case AddReward(rw, reward) => db.(rewards := db.rewards[rw := reward])
    case EditReward(rw, name, cost, active) =>
      if rw in db.rewards then
        db.(rewards := db.rewards[rw := db.rewards[rw].(name := name, cost := cost, active := active)])
      else db
  }

  // ----- Steps of the whole system -----

  ghost predicate Enabled(s: Sys, act: Action) {
    match act
    case Open(t, plan, sweep) => t !in s.txs && MayOpen(s.db, plan, sweep)
    case Answer(t) =>
      t in s.txs && s.txs[t].plan != [] && s.txs[t].plan[0].Ask?
      && Answerable(s.txs[t].plan[0].q, See(s.db, s.txs[t].work))
    case Advance(t) => t in s.txs && MayAdvance(s, t)
    case Miss(t) => t in s.txs && MayMiss(s, t)
    case Commit(t) => t in s.txs && s.txs[t].plan == []
    case Rollback(t) => t in s.txs
    case OpenFulfil(t, rid, _) => t !in s.txs && rid in s.owners && !s.owners[rid].failing
    case OpenCompensate(t, rid, _, _, _) =>
      t !in s.txs && rid in s.owners && FindRow(s.db.ledger, s.owners[rid].v.entryId).Some?
    case Abandon(rid) => rid in s.owners
    case Crash => true
    case Change(e) => MayEdit(s, e)
  }

  /** Committing a reservation makes its caller the owner of the redemption. */
  function OwnersAfter(owners: map<string, Owner>, done: seq<Atom>): map<string, Owner> {
    if |done| == 1 && done[0].AtomReserve? then
      owners[done[0].rid := Owner(Reservation(done[0].rid, done[0].eid, done[0].row.rewardId), false)]
    else owners
  }

  ghost function Next(s: Sys, act: Action): Sys
    requires Enabled(s, act)
  {
    match act
    case Open(t, plan, sweep) => s.(txs := s.txs[t := NewTx(plan, if sweep then Sweep else Plain)])
    case Answer(t) =>
      var tx := s.txs[t];
      var v := See(s.db, tx.work);
      s.(txs := s.txs[t := tx.(plan := NextItems(tx.plan[0].q, v) + tx.plan[1..],
                               reply := NextReply(tx.plan[0].q, v, tx.reply))])
    case Advance(t) => s.(txs := s.txs[t := Advanced(s.db, s.txs[t])])
    case Miss(t) => s.(txs := s.txs[t := s.txs[t].(plan := MissPlan(s, t))])
    case Commit(t) =>
      Sys(See(s.db, s.txs[t].work), s.txs - {t}, OwnersAfter(s.owners, s.txs[t].done))
    case Rollback(t) => s.(txs := s.txs - {t})
    case OpenFulfil(t, rid, ref) =>
      s.(txs := s.txs[t := NewTx([Do(AtomFulfil(rid, ref), 1)], Fulfilling(rid))], owners := s.owners - {rid})
    case OpenCompensate(t, rid, reason, eid, at) =>
      var v := s.owners[rid].v;
      var step := AtomCompensate(v, reason, FindRow(s.db.ledger, v.entryId).value, eid, at);
      s.(txs := s.txs[t := NewTx([Do(step, 1)], Compensating(rid))], owners := s.owners[rid := Owner(v, true)])
    case Abandon(rid) => s.(owners := s.owners - {rid})
    case Crash => s.(txs := map[], owners := map[])
    case Change(e) => s.(db := Edited(s.db, e))
  }
}
