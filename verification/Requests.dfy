/** A redeem call stays with the user and the key it was made for: it claims that key, or it answers from the
    one redemption that holds it, and it never inserts a claim more than twice. */
module Requests {
  import opened Schema
  import opened Ledger
  import opened Redeeming
  import opened Webhook
  import opened Atoms
  import opened Statements
  import opened Programs
  import opened System
  import opened Safety
  import opened Reachable
  import opened Shapes
  import opened Guarantees

  // ----- The request behind a transaction -----

  predicate ServesItem(i: Item, userId: string, key: string) {
    match i
    case Ask(AskPrior(input, _, _, _)) => input.userId == userId && input.key == key
    case Ask(AskReward(input, _, _, _)) => input.userId == userId && input.key == key
    case Ask(AskHolder(claim, _)) => claim.AtomReserve? && HoldsClaim(claim.row, userId, key)
    case Do(AtomReserve(_, row, _, _, _), _) => HoldsClaim(row, userId, key)
    case Do(AtomReplay(_), _) => true
    case _ => false
  }

  predicate Replays(i: Item) {
    i.Do? && i.a.AtomReplay?
  }

  /** Still on the way to its answer. */
  predicate Underway(tx: Tx, userId: string, key: string) {
    && tx.done == [] && |tx.plan| == 1 && ServesItem(tx.plan[0], userId, key)
    && (tx.reply.Some? <==> Replays(tx.plan[0]))
  }

  /** At its answer: a claim of this key, or a replay. */
  predicate Answering(tx: Tx, userId: string, key: string) {
    && tx.plan == [] && |tx.done| <= 1
    && (tx.reply.None? ==> |tx.done| == 1 && tx.done[0].AtomReserve? && HoldsClaim(tx.done[0].row, userId, key))
  }

  predicate Serving(tx: Tx, userId: string, key: string) {
    && tx.role.Plain?
    && (tx.reply.Some? ==> tx.reply.value.userId == userId && tx.reply.value.key == key)
    && (Underway(tx, userId, key) || Answering(tx, userId, key))
  }

  /** The action ends or forgets the transaction. */
  predicate Ends(act: Action, t: nat) {
    act == Commit(t) || act == Rollback(t) || act == Crash
  }

  lemma OwnActionServes(s: Sys, act: Action, t: nat, userId: string, key: string)
    requires t in s.txs && Serving(s.txs[t], userId, key) && Enabled(s, act)
    requires act in {Answer(t), Advance(t), Miss(t)}
    ensures t in Next(s, act).txs && Serving(Next(s, act).txs[t], userId, key)
  {
    hide See, FindByKey, HeldByOther, Can, Exec, Program, FindDelivery;
  }

  lemma ActionServes(s: Sys, act: Action, t: nat, userId: string, key: string)
    requires t in s.txs && Serving(s.txs[t], userId, key) && Enabled(s, act) && !Ends(act, t)
    ensures t in Next(s, act).txs && Serving(Next(s, act).txs[t], userId, key)
  {
    hide Serving, See, MayOpen, Answerable, MayMiss, MayAdvance, MayEdit, NextItems, NextReply, MissPlan, Advanced, Edited;
    if act in {Answer(t), Advance(t), Miss(t)} {
      OwnActionServes(s, act, t, userId, key);
    }
  }

  lemma {:induction false} RunServes(s: Sys, more: seq<Action>, t: nat, userId: string, key: string)
    requires t in s.txs && Serving(s.txs[t], userId, key) && IsRun(s, more)
    requires forall act :: act in more ==> !Ends(act, t)
    ensures t in After(s, more).txs && Serving(After(s, more).txs[t], userId, key)
    decreases |more|
  {
    hide Serving, Enabled, Next;
    if more != [] {
      var init := more[..|more| - 1];
      RunServes(s, init, t, userId, key);
      ActionServes(After(s, init), more[|more| - 1], t, userId, key);
    }
  }

  lemma OpensServing(s: Sys, t: nat, input: RedeemInput, rid: string, eid: string, at: int)
    requires Enabled(s, Open(t, [Ask(AskPrior(input, rid, eid, at))], false))
    ensures var s' := Next(s, Open(t, [Ask(AskPrior(input, rid, eid, at))], false));
      t in s'.txs && Serving(s'.txs[t], input.userId, input.key)
  {
  }

  /** The snapshots a reply carries are those of the redemption that holds the key; if the request waited for the
      key and read the row under its lock, the whole row it answers from is the row as it is now. */
  ghost predicate AnswersFrom(s: Sys, reply: Answered, userId: string, key: string, waited: bool) {
    && reply.userId == userId && reply.key == key
    && FindByKey(s.db, userId, key) == Some(reply.rid)
    && reply.rid in s.db.redemptions
    && reply.row.cost == s.db.redemptions[reply.rid].cost
    && reply.row.rewardName == s.db.redemptions[reply.rid].rewardName
    && reply.row.rewardId == s.db.redemptions[reply.rid].rewardId
    && (waited ==> reply.row == s.db.redemptions[reply.rid])
  }

  /** Every redeem call that succeeds, in any run: a transaction opened for a user and a key either commits the
      claim of that key, which happens once, or answers from the redemption that holds it, with its snapshots
      (and, if it waited for that key, with the status and everything else of the row as it is at the commit), and
      moves nothing. */
  lemma EveryCallClaimsOrReplays(acts: seq<Action>, t: nat, input: RedeemInput, rid: string, eid: string, at: int, more: seq<Action>)
    requires IsRun(START, acts) && Enabled(After(START, acts), Open(t, [Ask(AskPrior(input, rid, eid, at))], false))
    requires var begun := Next(After(START, acts), Open(t, [Ask(AskPrior(input, rid, eid, at))], false));
      && IsRun(begun, more) && (forall act :: act in more ==> !Ends(act, t))
      && Enabled(After(begun, more), Commit(t))
    ensures var begun := Next(After(START, acts), Open(t, [Ask(AskPrior(input, rid, eid, at))], false));
      var s := After(begun, more);
      var reply := s.txs[t].reply;
      if reply.None? then ClaimReady(s, t, input.userId, input.key)
      else AnswersFrom(s, reply.value, input.userId, input.key, s.txs[t].done != [])
           && Next(s, Commit(t)).db == s.db && Next(s, Commit(t)).owners == s.owners
  {
    hide SysInv, Valid, ShapesOk, After, IsRun, Enabled, Next, Serving, ClaimReady, AnswersFrom, Evolves;
    var s0 := After(START, acts);
    var open := Open(t, [Ask(AskPrior(input, rid, eid, at))], false);
    ReachableValid(acts);
    ActionKeeps(s0, open);
    ActionKeepsShapes(s0, open);
    OpensServing(s0, t, input, rid, eid, at);
    RunKeeps(Next(s0, open), more);
    RunKeepsShapes(Next(s0, open), more);
    RunServes(Next(s0, open), more, t, input.userId, input.key);
    ServedAtCommit(After(Next(s0, open), more), t, input.userId, input.key);
  }

  lemma ServedAtCommit(s: Sys, t: nat, userId: string, key: string)
    requires SysInv(s) && ShapesOk(s) && Enabled(s, Commit(t)) && Serving(s.txs[t], userId, key)
    ensures var reply := s.txs[t].reply;
      if reply.None? then ClaimReady(s, t, userId, key)
      else AnswersFrom(s, reply.value, userId, key, s.txs[t].done != [])
           && Next(s, Commit(t)).db == s.db && Next(s, Commit(t)).owners == s.owners
  {
    hide SysInv, See, Shaped, Valid, Evolves, FindByKey;
    if s.txs[t].reply.Some? {
      assert ReplyOk(s.db, s.txs[t]);
      ReplayCommits(s, t);
    }
  }

  // ----- How often a claim is inserted -----

  /** `attempt` counts the inserts of a claim, the one about to be made included. */
  predicate AttemptOk(i: Item) {
    match i
    case Do(AtomReserve(_, _, _, _, _), attempt) => 1 <= attempt <= 2
    case Ask(AskHolder(_, attempt)) => 1 <= attempt <= 2
    case _ => true
  }

  predicate AttemptsOk(plan: seq<Item>) {
    forall i :: 0 <= i < |plan| ==> AttemptOk(plan[i])
  }

  ghost predicate AllAttemptsOk(s: Sys) {
    forall t :: t in s.txs ==> AttemptsOk(s.txs[t].plan)
  }

  lemma AttemptsJoin(items: seq<Item>, plan: seq<Item>, n: nat)
    requires AttemptsOk(items) && AttemptsOk(plan) && n <= |plan|
    ensures AttemptsOk(items + plan[n..])
  {
    hide AttemptOk;
  }

  lemma {:induction false} SweepAttempts(dids: seq<string>, clock: string -> int, ids: string -> string)
    ensures AttemptsOk(SweepPlan(dids, clock, ids))
  {
    if dids != [] {
      SweepAttempts(dids[1..], clock, ids);
    }
  }

  lemma OpenAttempts(db: Db, plan: seq<Item>, sweep: bool)
    requires MayOpen(db, plan, sweep)
    ensures AttemptsOk(plan)
  {
    if sweep {
      var dids: seq<string>, clock: string -> int, ids: string -> string :|
        plan == SweepPlan(dids, clock, ids) && forall did :: did in dids ==> did in db.deliveries;
      SweepAttempts(dids, clock, ids);
    }
  }

  lemma AnswerAttempts(q: Query, v: Db)
    requires Answerable(q, v) && AttemptOk(Ask(q))
    ensures AttemptsOk(NextItems(q, v))
  {
    hide Acceptable, Fresh, FindByKey;
  }

  lemma OneTxAttempts(s: Sys, act: Action, t: nat)
    requires AllAttemptsOk(s) && Enabled(s, act) && t in s.txs && act in {Answer(t), Advance(t), Miss(t)}
    ensures AttemptsOk(Next(s, act).txs[t].plan)
  {
    hide See, HeldByOther, Can, Exec, Program, NextItems, NextReply, Answerable, FindByKey, FindDelivery;
    var plan := s.txs[t].plan;
    assert AttemptsOk(plan);
    if act.Answer? {
      AnswerAttempts(plan[0].q, See(s.db, s.txs[t].work));
      AttemptsJoin(NextItems(plan[0].q, See(s.db, s.txs[t].work)), plan, 1);
    }
  }

  lemma ActionAttempts(s: Sys, act: Action)
    requires AllAttemptsOk(s) && Enabled(s, act)
    ensures AllAttemptsOk(Next(s, act))
  {
    hide AttemptsOk, See, MayOpen, Answerable, MayMiss, MayAdvance, MayEdit, NextItems, NextReply, MissPlan, Advanced, Edited;
    forall t | t in Next(s, act).txs ensures AttemptsOk(Next(s, act).txs[t].plan) {
      if act in {Answer(t), Advance(t), Miss(t)} {
        OneTxAttempts(s, act, t);
      } else if act.Open? && act.t == t {
        OpenAttempts(s.db, act.plan, act.sweep);
      } else if act.OpenFulfil? && act.t == t {
        SettlersDoNotClaim(AtomFulfil(act.rid, act.ref));
      } else if act.OpenCompensate? && act.t == t {
        var v := s.owners[act.rid].v;
        SettlersDoNotClaim(AtomCompensate(v, act.reason, FindRow(s.db.ledger, v.entryId).value, act.eid, act.at));
      }
    }
  }

  lemma SettlersDoNotClaim(a: Atom)
    requires !a.AtomReserve?
    ensures AttemptsOk([Do(a, 1)])
  {
  }

  /** In every reachable state, the claim any transaction is about to insert is its first or its second. */
  lemma {:induction false} ClaimsAreInsertedAtMostTwice(acts: seq<Action>)
    requires IsRun(START, acts)
    ensures AllAttemptsOk(After(START, acts))
    decreases |acts|
  {
    hide Enabled, Next, AttemptsOk;
    if acts != [] {
      ClaimsAreInsertedAtMostTwice(acts[..|acts| - 1]);
      ActionAttempts(After(START, acts[..|acts| - 1]), acts[|acts| - 1]);
    }
  }
}
