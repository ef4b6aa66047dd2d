/** A plan followed with nobody else about, step by step, and what each service's plan then amounts to. */
module SoloPlans {
  import opened Schema
  import opened Earning
  import opened Ledger
  import opened Redeeming
  import opened Webhook
  import opened Atoms
  import opened Statements
  import opened System
  import opened Ingestion

  /** Inserts of a claim still allowed after this one. */
  function Retries(attempt: nat): nat {
    if attempt < 2 then 2 - attempt else 0
  }

  function ItemWeight(i: Item): nat {
    match i
    case Do(a, attempt) => if a.AtomReserve? then 3 + 2 * Retries(attempt) else if a.AtomArrive? then 2 else 1
    case Ask(AskPrior(_, _, _, _)) => 7
    case Ask(AskReward(_, _, _, _)) => 6
    case Ask(AskHolder(_, attempt)) => 2 + 2 * Retries(attempt)
    case Ask(AskBody(_, _, _)) => 4
    case Ask(AskPrice(_, _, _)) => 2
  }

  function Weight(plan: seq<Item>): nat {
    if plan == [] then 0 else ItemWeight(plan[0]) + Weight(plan[1..])
  }

  lemma {:induction false} WeightConcat(a: seq<Item>, b: seq<Item>)
    ensures Weight(a + b) == Weight(a) + Weight(b)
  {
    if a == [] {
      assert a + b == b;
    } else {
      WeightConcat(a[1..], b);
      assert (a + b)[1..] == a[1..] + b;
    }
  }

  /** A conditional first statement that would affect no row. */
  ghost predicate Misses(a: Atom, db: Db) {
    match a
    case AtomReserve(_, row, _, _, _) => FindByKey(db, row.userId, row.key).Some?
    case AtomCompensate(v, _, _, _, _) => v.redemptionId in db.redemptions && db.redemptions[v.redemptionId].status != RESERVED
    case AtomArrive(_, d) => FindDelivery(db, d.partner, d.key).Some?
    case AtomMark(did, c) => c == Reclaim && did in db.deliveries && db.deliveries[did].status != UNMATCHED
    case _ => false
  }

  /** What takes the place of the rest of the plan when it does. */
  ghost function AfterMiss(a: Atom, attempt: nat, rest: seq<Item>, db: Db): seq<Item>
    requires Misses(a, db)
  {
    match a
    case AtomReserve(_, _, _, _, _) => [Ask(AskHolder(a, attempt))] + rest
    case AtomArrive(_, d) => [Do(AtomMark(FindDelivery(db, d.partner, d.key).value, Bump), 1)] + rest
    case AtomMark(_, _) => if rest == [] then [] else rest[1..]
    case _ => rest
  }

  lemma MissIsLighter(a: Atom, attempt: nat, rest: seq<Item>, db: Db)
    requires Misses(a, db)
    ensures Weight(AfterMiss(a, attempt, rest, db)) < Weight([Do(a, attempt)] + rest)
  {
    assert ([Do(a, attempt)] + rest)[1..] == rest;
    if a.AtomReserve? {
      WeightConcat([Ask(AskHolder(a, attempt))], rest);
    }
    if a.AtomArrive? {
      WeightConcat([Do(AtomMark(FindDelivery(db, a.delivery.partner, a.delivery.key).value, Bump), 1)], rest);
    }
  }

  lemma AnswerIsLighter(q: Query, rest: seq<Item>, db: Db)
    requires Answerable(q, db)
    ensures Weight(NextItems(q, db) + rest) < Weight([Ask(q)] + rest)
  {
    hide Acceptable, Fresh, FindByKey, ResolveRule;
    assert ([Ask(q)] + rest)[1..] == rest;
    var items := NextItems(q, db);
    WeightConcat(items, rest);
    assert |items| == 2 ==> Weight(items[1..]) == ItemWeight(items[1]);
  }

  /** A plan followed to its end with nobody else about: the database it commits, or None if something throws. */
  ghost function Alone(db: Db, plan: seq<Item>): Option<Db>
    decreases Weight(plan)
  {
    if plan == [] then Some(db)
    else
      var rest := plan[1..];
      assert plan == [plan[0]] + rest;
      match plan[0]
      case Do(a, attempt) =>
        if Misses(a, db) then
          MissIsLighter(a, attempt, rest, db);
          Alone(db, AfterMiss(a, attempt, rest, db))
        else if Succeeds(a, db) then Alone(Effect(a, db), rest)
        else None
      case Ask(q) =>
        if Answerable(q, db) then
          AnswerIsLighter(q, rest, db);
          Alone(db, NextItems(q, db) + rest)
        else None
  }

  function Committed<T>(state: (Db, Result<T>)): Option<Db> {
    if state.1.Ok? then Some(state.0) else None
  }

  lemma DoAlone(db: Db, a: Atom, rest: seq<Item>)
    requires !Misses(a, db)
    ensures Alone(db, [Do(a, 1)] + rest) == if Succeeds(a, db) then Alone(Effect(a, db), rest) else None
  {
    assert ([Do(a, 1)] + rest)[1..] == rest;
  }

  lemma AskAlone(db: Db, q: Query, rest: seq<Item>)
    ensures Alone(db, [Ask(q)] + rest) == if Answerable(q, db) then Alone(db, NextItems(q, db) + rest) else None
  {
    assert ([Ask(q)] + rest)[1..] == rest;
  }

  // ----- Redemption -----

  /** Phase one. */
  lemma ReserveAlone(db: Db, input: RedeemInput, rid: string, eid: string, at: int)
    ensures Alone(db, [Ask(AskPrior(input, rid, eid, at))]) == Committed(Reserve(db, input, rid, eid, at))
  {
    hide ReserveWith, FindByKey;
    var q := AskPrior(input, rid, eid, at);
    assert [Ask(q)] == [Ask(q)] + [];
    AskAlone(db, q, []);
    if FindByKey(db, input.userId, input.key).None? {
      var q' := AskReward(input, rid, eid, at);
      AskAlone(db, q', []);
      if input.rewardId in db.rewards && db.rewards[input.rewardId].active {
        var seen := db.rewards[input.rewardId];
        var a := AtomReserve(rid, ClaimRow(input, seen), seen.stock.Some?, eid, at);
        ClaimNotReplay(db, a);
        DoAlone(db, a, []);
      }
    }
  }

  lemma ClaimNotReplay(db: Db, a: Atom)
    requires a.AtomReserve? && FindByKey(db, a.row.userId, a.row.key).None?
    ensures !Misses(a, db)
    ensures Succeeds(a, db) <==> ReserveWith(db, a.rid, a.row, a.limited, a.eid, a.at).1.Ok?
  {
    hide FindByKey;
  }

  /** Compensation. */
  lemma CompensateAlone(db: Db, v: Reservation, reason: string, original: Entry, eid: string, at: int)
    requires v.redemptionId in db.redemptions
    ensures Alone(db, [Do(AtomCompensate(v, reason, original, eid, at), 1)]) == Committed(Compensate(db, v, reason, eid, at))
  {
    hide Reverse, MarkFailed, ReturnUnit;
    var a := AtomCompensate(v, reason, original, eid, at);
    if !Misses(a, db) {
      assert [Do(a, 1)] == [Do(a, 1)] + [];
      DoAlone(db, a, []);
    }
  }

  /** One step that no conditional statement guards. */
  lemma PlainAlone(db: Db, a: Atom)
    requires !Misses(a, db)
    ensures Alone(db, [Do(a, 1)]) == if Succeeds(a, db) then Some(Effect(a, db)) else None
  {
    hide Misses, Succeeds, Effect;
    assert [Do(a, 1)] == [Do(a, 1)] + [];
    DoAlone(db, a, []);
    if Succeeds(a, db) {
      NothingAlone(Effect(a, db));
    }
  }

  // ----- Webhooks -----

  /** Capture. */
  lemma CaptureAlone(db: Db, partner: string, body: Body, did: string, at: int)
    ensures Alone(db, [Do(AtomArrive(did, NewDelivery(partner, body, at)), 1)]) == Committed(Capture(db, partner, body, did, at))
  {
    hide FindDelivery, Alter;
    var a := AtomArrive(did, NewDelivery(partner, body, at));
    assert [Do(a, 1)] == [Do(a, 1)] + [];
    if Misses(a, db) {
      var bump := AtomMark(FindDelivery(db, partner, ResolveKey(body)).value, Bump);
      assert AfterMiss(a, 1, [], db) == [Do(bump, 1)] + [];
      DoAlone(db, bump, []);
    } else {
      DoAlone(db, a, []);
    }
  }

  lemma MarkAlone(db: Db, did: string, c: Change, rest: seq<Item>)
    requires did in db.deliveries && c != Reclaim
    ensures Alone(db, [Do(AtomMark(did, c), 1)] + rest) == Alone(Update(db, did, c), rest)
  {
    DoAlone(db, AtomMark(did, c), rest);
  }

  lemma PriceAlone(db: Db, did: string, now: int, eid: string, rest: seq<Item>)
    requires did in db.deliveries && Acceptable(db.deliveries[did].body)
    ensures Alone(db, [Ask(AskPrice(did, now, eid))] + rest) ==
      if Price(db, did, now, eid).1.Ok? then Alone(Price(db, did, now, eid).0, rest) else None
  {
    hide Fresh, ResolveRule, Update, CreditDelivery, Alone;
    AskAlone(db, AskPrice(did, now, eid), rest);
    MarkAlone(db, did, Reject, rest);
    MarkAlone(db, did, Park(UNKNOWN_USER), rest);
    MarkAlone(db, did, Park(NO_RULE), rest);
    if Priceable(db, db.deliveries[did].body) {
      DoAlone(db, AtomCredit(did, CreditOf(db, db.deliveries[did]), eid, now), rest);
    }
  }

  /** Processing, and whatever comes after it in the same transaction. */
  lemma ProcessAlone(db: Db, did: string, now: int, eid: string, rest: seq<Item>)
    ensures Alone(db, [Ask(AskBody(did, now, eid))] + rest) ==
      if Process(db, did, now, eid).1.Ok? then Alone(Process(db, did, now, eid).0, rest) else None
  {
    hide Price, Alone, Alter;
    AskAlone(db, AskBody(did, now, eid), rest);
    if did in db.deliveries {
      var body := db.deliveries[did].body;
      if !Acceptable(body) {
        MarkAlone(db, did, Reject, rest);
      } else {
        var touch, price := Do(AtomMark(did, Touch(body.userRef, body.activityType)), 1), Ask(AskPrice(did, now, eid));
        assert [touch, price] + rest == [touch] + ([price] + rest);
        MarkAlone(db, did, Touch(body.userRef, body.activityType), [price] + rest);
        SameBody(db, did, Touch(body.userRef, body.activityType));
        PriceAlone(Update(db, did, Touch(body.userRef, body.activityType)), did, now, eid, rest);
      }
    }
  }

  lemma SameBody(db: Db, did: string, c: Change)
    requires did in db.deliveries
    ensures Update(db, did, c).deliveries[did].body == db.deliveries[did].body
  {
    AlterKeepsIdentity(db.deliveries[did], c);
  }

  /** A whole backfill, claim by claim: deliveries no longer UNMATCHED are skipped in both. */
  lemma {:induction false} BackfillAlone(db: Db, dids: seq<string>, c: Counts, clock: string -> int, ids: string -> string)
    requires forall did :: did in dids ==> did in db.deliveries
    ensures Alone(db, SweepPlan(dids, clock, ids)) == Committed(Replay(db, dids, c, clock, ids))
    decreases |dids|
  {
    hide Process, Alone, Alter, OnlyDelivery;
    if dids == [] {
      NothingAlone(db);
    } else {
      var did, rest := dids[0], SweepPlan(dids[1..], clock, ids);
      var claim, ask := AtomMark(did, Reclaim), AskBody(did, clock(did), ids(did));
      assert SweepPlan(dids, clock, ids) == [Do(claim, 1)] + ([Ask(ask)] + rest);
      if db.deliveries[did].status != UNMATCHED {
        SkipAlone(db, claim, Ask(ask), rest);
        BackfillAlone(db, dids[1..], c.(skipped := c.skipped + 1), clock, ids);
      } else {
        DoAlone(db, claim, [Ask(ask)] + rest);
        ProcessAlone(Update(db, did, Reclaim), did, clock(did), ids(did), rest);
        var (d, r) := ReplayOne(db, did, clock(did), ids(did));
        if r.Ok? {
          ReplayedOne(db, did, clock(did), ids(did));
          SameDeliveries(db, d, did);
          BackfillAlone(d, dids[1..], Count(c, r.value), clock, ids);
        }
      }
    }
  }

  lemma NothingAlone(db: Db)
    ensures Alone(db, []) == Some(db)
  {
  }

  lemma SkipAlone(db: Db, claim: Atom, ask: Item, rest: seq<Item>)
    requires claim.AtomMark? && Misses(claim, db)
    ensures Alone(db, [Do(claim, 1)] + ([ask] + rest)) == Alone(db, rest)
  {
    assert ([Do(claim, 1)] + ([ask] + rest))[1..] == [ask] + rest;
    assert ([ask] + rest)[1..] == rest;
  }

  lemma SameDeliveries(db: Db, d: Db, did: string)
    requires OnlyDelivery(db, d, did)
    ensures d.deliveries.Keys == db.deliveries.Keys
  {
  }
}
