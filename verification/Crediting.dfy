/** Calls that credit a key that is still open, and so the exact condition. */
module Crediting {
  import opened Schema
  import opened Earning
  import opened Ledger
  import opened Redeeming
  import opened Webhook
  import opened Atoms
  import opened System
  import opened Reachable
  import opened Honest
  import opened Filed
  import opened Ingestion
  import opened Parking
  import opened Calls
  import opened Creditable

  // ----- Names nobody has used -----

  lemma LongerThanAll(ss: set<string>) returns (n: nat)
    ensures forall s :: s in ss ==> |s| <= n
    decreases ss
  {
    if ss == {} {
      n := 0;
    } else {
      var x :| x in ss;
      var m := LongerThanAll(ss - {x});
      n := if m < |x| then |x| else m;
      forall s | s in ss ensures |s| <= n {
        assert s == x || s in ss - {x};
      }
    }
  }

  lemma NewName(ss: set<string>) returns (x: string)
    ensures x !in ss && x != ""
  {
    var n := LongerThanAll(ss);
    x := seq(n + 1, _ => 'x');
  }

  lemma NewEntryId(db: Db) returns (eid: string)
    ensures !HasId(db.ledger, eid)
  {
    eid := NewName(set i | 0 <= i < |db.ledger| :: db.ledger[i].id);
  }

  /** A different new id for each candidate: a prefix longer than every id in use. */
  lemma NewIdsExist(db: Db, dids: seq<string>) returns (ids: string -> string)
    ensures NewIds(db, dids, ids)
  {
    var n := LongerThanAll(set i | 0 <= i < |db.ledger| :: db.ledger[i].id);
    var prefix := seq(n + 1, _ => 'x');
    ids := (x: string) => prefix + x;
    forall x ensures !HasId(db.ledger, ids(x)) {
      forall e | e in db.ledger ensures |e.id| <= n {
      }
    }
    forall x, y | ids(x) == ids(y) ensures x == y {
      assert (prefix + x)[|prefix|..] == x && (prefix + y)[|prefix|..] == y;
    }
  }

  // ----- The candidate list exists -----

  lemma EarliestOf(db: Db, s: set<string>) returns (x: string)
    requires s != {} && forall did :: did in s ==> did in db.deliveries
    ensures x in s && forall y :: y in s ==> db.deliveries[x].receivedAt <= db.deliveries[y].receivedAt
    decreases s
  {
    x :| x in s;
    if s != {x} {
      var y := EarliestOf(db, s - {x});
      forall z | z in s ensures z == x || db.deliveries[y].receivedAt <= db.deliveries[z].receivedAt {
        assert z == x || z in s - {x};
      }
      x := if db.deliveries[y].receivedAt <= db.deliveries[x].receivedAt then y else x;
    }
  }

  lemma OldestFirst(db: Db, s: set<string>) returns (dids: seq<string>)
    requires forall did :: did in s ==> did in db.deliveries
    ensures forall did :: did in dids <==> did in s
    ensures Distinct(dids)
    ensures forall i, j :: 0 <= i < j < |dids| ==> db.deliveries[dids[i]].receivedAt <= db.deliveries[dids[j]].receivedAt
    decreases s
  {
    if s == {} {
      dids := [];
    } else {
      var x := EarliestOf(db, s);
      var rest := OldestFirst(db, s - {x});
      dids := [x] + rest;
      forall did ensures did in dids <==> did in s {
        assert did in dids <==> did == x || did in rest;
      }
      forall i, j | 0 <= i < j < |dids|
        ensures dids[i] != dids[j] && db.deliveries[dids[i]].receivedAt <= db.deliveries[dids[j]].receivedAt
      {
        assert dids[j] == rest[j - 1] && rest[j - 1] in rest;
        if i > 0 {
          assert dids[i] == rest[i - 1];
        }
      }
    }
  }

  lemma CandidatesExist(db: Db, f: Filter) returns (dids: seq<string>)
    ensures Candidates(db, f, dids)
  {
    hide Selects;
    var s := set did | did in db.deliveries && Selects(f, db.deliveries[did]);
    dids := OldestFirst(db, s);
    forall i | 0 <= i < |dids| ensures dids[i] in db.deliveries && Selects(f, db.deliveries[dids[i]]) {
      assert dids[i] in s;
    }
    forall did | did in db.deliveries && Selects(f, db.deliveries[did]) ensures did in dids {
      assert did in s;
    }
  }

  // ----- One call after another -----

  lemma CreditedAlready(db: Db, partner: string, key: string, from: int)
    requires KeyCredited(db, partner, key)
    ensures CanBeCredited(db, partner, key, from)
  {
    hide KeyCredited;
    assert Chronicle(db, [], from) && Finally(db, []) == db;
  }

  lemma CreditedAfter(db: Db, c: Stamped, partner: string, key: string, from: int)
    requires from <= c.now && May(db, c.call) && CanBeCredited(Leaves(db, c), partner, key, c.now)
    ensures CanBeCredited(db, partner, key, from)
  {
    hide KeyCredited, May, Leaves;
    var calls :| Chronicle(Leaves(db, c), calls, c.now) && KeyCredited(Finally(Leaves(db, c), calls), partner, key);
    ChronicleOf(db, c, calls, from);
  }

  // ----- A missing rule, a missing user -----

  /** A rule for just the instant of the event, where there is none. */
  lemma RuleFits(rules: seq<Rule>, id: string, activityType: string, t: int)
    requires RulesInv(rules) && ResolveRule(rules, activityType, t).None?
    requires forall i :: 0 <= i < |rules| ==> rules[i].id != id
    ensures var rule := Rule(id, activityType, 1, t, Some(t + 1), true);
      RulesInv(rules + [rule]) && ResolveRule(rules + [rule], activityType, t) == Some(rule)
  {
    var rule := Rule(id, activityType, 1, t, Some(t + 1), true);
    var all := rules + [rule];
    forall i | 0 <= i < |rules| ensures !Clash(rules[i], rule) {
      assert rules[i] in rules && !Applies(rules[i], activityType, t);
      OverlapIsIntersection(rules[i], rule);
    }
    forall i, j | 0 <= i < j < |all| ensures !Clash(all[i], all[j]) {
    }
    assert all[|rules|] == rule;
    ResolveIsTheOnlyMatch(all, activityType, t, rule);
  }

  lemma WorthlessBefore(db: Db, rule: Rule, body: Body)
    requires NoClash(db.rules) && rule.points > 0 && Worthless(db.(rules := db.rules + [rule]), body)
    ensures Worthless(db, body)
  {
    var r := RuleFor(db.(rules := db.rules + [rule]), body).value;
    assert r in db.rules;
    ResolveIsTheOnlyMatch(db.rules, body.activityType, body.occurredAt, r);
  }

  /** An edit that makes a known user's event worth something, and no event worthless. */
  lemma RuleAppears(db: Db, body: Body) returns (rule: Rule)
    requires Valid(db) && body.Event? && RuleFor(db, body).None?
    ensures MayEdit(Sys(db, map[], map[]), AddRule(rule))
    ensures var d := Edited(db, AddRule(rule));
      && d == db.(rules := d.rules)
      && RuleFor(d, body).Some? && !Worthless(d, body)
      && forall b :: Worthless(d, b) ==> Worthless(db, b)
  {
    hide LedgerState, RedemptionInv, DeliveryInv, ResolveRule, Worthless;
    var id := NewName(set i | 0 <= i < |db.rules| :: db.rules[i].id);
    rule := Rule(id, body.activityType, 1, body.occurredAt, Some(body.occurredAt + 1), true);
    RuleFits(db.rules, id, body.activityType, body.occurredAt);
    var d := Edited(db, AddRule(rule));
    forall b | Worthless(d, b) ensures Worthless(db, b) {
      WorthlessBefore(db, rule, b);
    }
    PositiveIsNotWorthless(d, body);
  }

  lemma PositiveIsNotWorthless(db: Db, body: Body)
    requires body.Event? && RuleFor(db, body).Some? && RuleFor(db, body).value.points > 0
    ensures !Worthless(db, body)
  {
    hide ResolveRule;
  }

  // ----- Captured, and in no terminal status: the next request under the key processes it -----

  lemma RetryCredits(db: Db, did: string, from: int)
    requires Sound(db) && did in db.deliveries && !IsTerminal(db.deliveries[did].status)
    requires var body := db.deliveries[did].body;
      Acceptable(body) && from - body.occurredAt <= MAX_EVENT_AGE_MS && Priceable(db, body) && !Worthless(db, body)
    ensures CanBeCredited(db, db.deliveries[did].partner, db.deliveries[did].key, from)
  {
    var row := db.deliveries[did];
    var now := if from <= row.body.occurredAt then row.body.occurredAt else from;
    var eid := NewEntryId(db);
    KeyIsEventId(db, did);
    StoredIsFound(db, did);
    var c := Stamped(Post(row.partner, row.body, did, eid, false), now);
    RetryProcesses(db, did, now, eid);
    var d := Leaves(db, c);
    CallKeepsSound(db, c);
    DeliveryIsKept(db, d, did);
    hide Valid, RowsFiled, Evolves, PostWebhook, Acceptable, Worthless, Priceable, FindDelivery;
    ProcessedHoldsKey(d, did);
    CreditedAlready(d, row.partner, row.key, now);
    CreditedAfter(db, c, row.partner, row.key, from);
  }

  lemma RetryProcesses(db: Db, did: string, now: int, eid: string)
    requires Valid(db) && did in db.deliveries && !IsTerminal(db.deliveries[did].status) && !HasId(db.ledger, eid)
    requires Live(db.deliveries[did], now) && Priceable(db, db.deliveries[did].body) && !Worthless(db, db.deliveries[did].body)
    requires ResolveKey(db.deliveries[did].body) == db.deliveries[did].key
    requires FindDelivery(db, db.deliveries[did].partner, db.deliveries[did].key) == Some(did)
    ensures var row := db.deliveries[did];
      var d := PostWebhook(db, row.partner, row.body, did, eid, now, false).0;
      did in d.deliveries && d.deliveries[did].status == PROCESSED
  {
    hide Valid, HasId, Process, Live, Worthless, FindDelivery;
    var row := db.deliveries[did];
    var captured := Update(db, did, Bump);
    BumpKeepsValid(db, did);
    LiveAlike(row, captured.deliveries[did]);
    SameWorth(db, captured, row.body);
    ProcessGoesThrough(captured, did, now, eid);
    ProcessPlaces(captured, did, now, eid);
  }

  lemma RuleThenRetryCredits(db: Db, did: string, from: int)
    requires Sound(db) && did in db.deliveries && !IsTerminal(db.deliveries[did].status) && StillPayable(db, did, from)
    requires db.deliveries[did].body.userRef in db.users
    ensures CanBeCredited(db, db.deliveries[did].partner, db.deliveries[did].key, from)
  {
    hide Valid, RowsFiled, Evolves, Acceptable, Worthless, ResolveRule, CanBeCredited, MayEdit, Edited;
    var row := db.deliveries[did];
    AcceptableIsEvent(row.body);
    if RuleFor(db, row.body).Some? {
      RetryCredits(db, did, from);
    } else {
      var rule := RuleAppears(db, row.body);
      var c := Stamped(Edits(AddRule(rule)), from);
      CallKeepsSound(db, c);
      RetryCredits(Leaves(db, c), did, from);
      CreditedAfter(db, c, row.partner, row.key, from);
    }
  }

  lemma WaitingCredits(db: Db, did: string, from: int)
    requires Sound(db) && did in db.deliveries && !IsTerminal(db.deliveries[did].status) && StillPayable(db, did, from)
    ensures CanBeCredited(db, db.deliveries[did].partner, db.deliveries[did].key, from)
  {
    hide Valid, RowsFiled, Evolves, Worthless, CanBeCredited, Releasable;
    var row := db.deliveries[did];
    if row.body.userRef in db.users {
      RuleThenRetryCredits(db, did, from);
    } else {
      var c := Stamped(Edits(AddUser(row.body.userRef, row.body.userRef)), from);
      CallKeepsSound(db, c);
      SameWorth(db, Leaves(db, c), row.body);
      RuleThenRetryCredits(Leaves(db, c), did, from);
      CreditedAfter(db, c, row.partner, row.key, from);
    }
  }

  // ----- Nothing stored -----

  lemma NothingStoredCredits(db: Db, partner: string, key: string, from: int)
    requires Sound(db) && FindDelivery(db, partner, key).None? && key != ""
    ensures CanBeCredited(db, partner, key, from)
  {
    hide Valid, RowsFiled, Evolves, CanBeCredited, FindDelivery;
    var did := NewName(db.deliveries.Keys);
    var kind := NewName(set i | 0 <= i < |db.rules| :: db.rules[i].activityType);
    var body := Event(key, "u", kind, from, false, "");
    var c := Stamped(Post(partner, body, did, "", true), from);
    CallKeepsSound(db, c);
    StoredAsFailed(db, partner, body, did, from);
    var d := Leaves(db, c);
    assert StillPayable(d, did, from) by {
      hide Releasable;
      assert forall x :: x in d.rules ==> x.activityType != kind;
    }
    WaitingCredits(d, did, from);
    CreditedAfter(db, c, partner, key, from);
  }

  lemma StoredAsFailed(db: Db, partner: string, body: Body, did: string, now: int)
    requires did !in db.deliveries && FindDelivery(db, partner, ResolveKey(body)).None?
    ensures var d := PostWebhook(db, partner, body, did, "", now, true).0;
      && did in d.deliveries && d.deliveries[did].status == DELIVERY_FAILED && d.deliveries[did].body == body
      && d.deliveries[did].partner == partner && d.deliveries[did].key == ResolveKey(body)
      && d.rules == db.rules
  {
    hide FindDelivery;
  }

  // ----- Parked -----

  function FilterFor(d: Delivery): Filter {
    Filter(d.userRef, d.activityType)
  }

  /** The backfill by both columns of a parked delivery selects it and only deliveries with the same columns. */
  lemma FilterSelects(db: Db, did: string)
    requires RowsFiled(db) && did in db.deliveries && db.deliveries[did].status == UNMATCHED
    ensures var f := FilterFor(db.deliveries[did]);
      && f.userRef.Some? && f.activityType.Some? && Selects(f, db.deliveries[did])
      && forall x :: x in db.deliveries && Selects(f, db.deliveries[x]) ==>
           db.deliveries[x].status == UNMATCHED && db.deliveries[x].userRef == db.deliveries[did].userRef
           && db.deliveries[x].activityType == db.deliveries[did].activityType
  {
    assert Columned(db.deliveries[did]);
  }

  /** A backfill that nothing on its list stops can be made, and leaves every delivery on the list placed. */
  lemma SweepGoesThrough(db: Db, f: Filter, now: int) returns (c: Stamped)
    requires Sound(db) && f.userRef.Some?
    requires forall x :: x in db.deliveries && Selects(f, db.deliveries[x]) ==> !Aborts(db, x, now)
    ensures c.now == now && May(db, c.call) && SweptAt(db, Leaves(db, c), f, now)
  {
    var dids := CandidatesExist(db, f);
    var ids := NewIdsExist(db, dids);
    c := Stamped(Call.Sweep(f, dids, ids), now);
    hide Valid, RowsFiled, Aborts, Selects, SweptAt, Backfill, Candidates, NewIds;
    assert forall x :: Always(now)(x) == now;
    BackfillGoesThroughExactly(db, f, dids, Always(now), ids);
    BackfillSweeps(db, f, dids, ids, now);
  }

  lemma ClearDoesNotAbort(db: Db, did: string, x: string, now: int)
    requires RowsFiled(db) && did in db.deliveries && db.deliveries[did].status == UNMATCHED && Clear(db, did, now)
    requires x in db.deliveries && Selects(FilterFor(db.deliveries[did]), db.deliveries[x])
    ensures !Aborts(db, x, now)
  {
    AbortersBlock(db, did, x, now);
    hide Worthless, Selects, Live, Priceable, Blocks, Aborts;
  }

  lemma AbortersBlock(db: Db, did: string, x: string, now: int)
    requires RowsFiled(db) && did in db.deliveries && db.deliveries[did].status == UNMATCHED
    requires x in db.deliveries && Selects(FilterFor(db.deliveries[did]), db.deliveries[x])
    ensures Aborts(db, x, now) ==> Blocks(db, x, did) && Live(db.deliveries[x], now)
  {
    FilterSelects(db, did);
    hide Worthless, Selects, Acceptable, RowsFiled, Priceable;
  }

  lemma SweepCredits(db: Db, did: string, now: int)
    requires Sound(db) && did in db.deliveries && db.deliveries[did].status == UNMATCHED
    requires Clear(db, did, now) && Priceable(db, db.deliveries[did].body)
    ensures CanBeCredited(db, db.deliveries[did].partner, db.deliveries[did].key, now)
  {
    hide Valid, RowsFiled, CanBeCredited, Priceable, Live, Selects, Aborts, May, Leaves, Blocks, KeyCredited, Worthless;
    var row := db.deliveries[did];
    var f := FilterFor(row);
    FilterSelects(db, did);
    forall x | x in db.deliveries && Selects(f, db.deliveries[x]) ensures !Aborts(db, x, now) {
      ClearDoesNotAbort(db, did, x, now);
    }
    var c := SweepGoesThrough(db, f, now);
    var d := Leaves(db, c);
    assert Placed(db, d, did, now);
    ProcessedHoldsKey(d, did);
    CreditedAlready(d, row.partner, row.key, now);
    CreditedAfter(db, c, row.partner, row.key, now);
  }

  lemma RuleThenSweepCredits(db: Db, did: string, now: int, from: int)
    requires Sound(db) && did in db.deliveries && db.deliveries[did].status == UNMATCHED && from <= now
    requires Clear(db, did, now) && db.deliveries[did].body.Event? && db.deliveries[did].body.userRef in db.users
    ensures CanBeCredited(db, db.deliveries[did].partner, db.deliveries[did].key, from)
  {
    hide Valid, RowsFiled, Evolves, Acceptable, Worthless, ResolveRule, CanBeCredited, MayEdit, Edited, Live, Blocks;
    var row := db.deliveries[did];
    if RuleFor(db, row.body).Some? {
      SweepCredits(db, did, now);
      Later(db, row.partner, row.key, now, from);
    } else {
      var rule := RuleAppears(db, row.body);
      var c := Stamped(Edits(AddRule(rule)), now);
      CallKeepsSound(db, c);
      var d := Leaves(db, c);
      forall x | Blocks(d, x, did) ensures Blocks(db, x, did) && d.deliveries == db.deliveries {
        FewerBlocks(db, d, x, did);
      }
      SweepCredits(d, did, now);
      CreditedAfter(db, c, row.partner, row.key, from);
    }
  }

  lemma FewerBlocks(db: Db, d: Db, x: string, did: string)
    requires d.deliveries == db.deliveries && Blocks(d, x, did) && forall b :: Worthless(d, b) ==> Worthless(db, b)
    ensures Blocks(db, x, did)
  {
    hide Acceptable, Worthless;
  }

  lemma Later(db: Db, partner: string, key: string, now: int, from: int)
    requires from <= now && CanBeCredited(db, partner, key, now)
    ensures CanBeCredited(db, partner, key, from)
  {
    hide KeyCredited, May, Leaves;
    var calls :| Chronicle(db, calls, now) && KeyCredited(Finally(db, calls), partner, key);
    assert Chronicle(db, calls, from);
  }

  /** Both fresh at the first instant of the one's window that is left, and at its last, means fresh throughout. */
  lemma WindowsOfOneLength(a: Delivery, b: Delivery, from: int, n: int)
    requires Acceptable(a.body) && Acceptable(b.body) && from - a.body.occurredAt <= MAX_EVENT_AGE_MS
    ensures var soonest := a.body.occurredAt - MAX_EVENT_FUTURE_MS;
      var first := if from <= soonest then soonest else from;
      var last := a.body.occurredAt + MAX_EVENT_AGE_MS;
      && from <= first <= last && Live(a, first) && Live(a, last)
      && (from <= n && Outlasts(a, b, n) ==> !Live(b, first) || !Live(b, last))
  {
  }

  lemma UnknownDoesNotAbort(db: Db, did: string, x: string, now: int)
    requires RowsFiled(db) && did in db.deliveries && db.deliveries[did].status == UNMATCHED
    requires db.deliveries[did].body.Event? && db.deliveries[did].body.userRef !in db.users
    requires x in db.deliveries && Selects(FilterFor(db.deliveries[did]), db.deliveries[x])
    ensures !Aborts(db, x, now)
  {
    FilterSelects(db, did);
    hide Worthless, Selects, Live;
    assert Columned(db.deliveries[did]) && Columned(db.deliveries[x]);
  }

  function LastInstant(d: Delivery): int
    requires d.body.Event?
  {
    d.body.occurredAt + MAX_EVENT_AGE_MS
  }

  /** A blocker left by a backfill at the first instant is out of its window by the last. */
  lemma BlockerIsGone(db: Db, d: Db, did: string, x: string, from: int, first: int)
    requires did in db.deliveries && db.deliveries[did].status == UNMATCHED && StillPayable(db, did, from)
    requires db.deliveries[did].body.userRef !in db.users
    requires SweptAt(db, d, FilterFor(db.deliveries[did]), first)
    requires did in d.deliveries && d.deliveries[did].status == UNMATCHED && Blocks(d, x, did)
    requires var soonest := db.deliveries[did].body.occurredAt - MAX_EVENT_FUTURE_MS;
      first == if from <= soonest then soonest else from
    ensures !Live(d.deliveries[x], LastInstant(db.deliveries[did]))
  {
    var row := db.deliveries[did];
    hide Valid, RowsFiled, Worthless, Live, Aborts;
    ColumnsStay(db, d, did);
    var other := db.deliveries[x];
    assert Selects(FilterFor(row), other) by {
      FilterSelects(db, did);
    }
    hide Selects;
    assert Placed(db, d, x, first);
    LiveAlike(other, d.deliveries[x]);
    SelectedIsParked(FilterFor(row), other);
    ColumnsStay(db, d, x);
    SameWorth(db, d, other.body);
    assert Blocks(db, x, did);
    var n :| from <= n && Outlasts(row, other, n);
    WindowsOfOneLength(row, other, from, n);
  }

  /** One backfill while the user is unknown sheds what stands in the way. */
  lemma ShedBlockers(db: Db, did: string, from: int) returns (c: Stamped)
    requires Sound(db) && did in db.deliveries && db.deliveries[did].status == UNMATCHED && StillPayable(db, did, from)
    requires db.deliveries[did].body.userRef !in db.users
    ensures from <= c.now <= LastInstant(db.deliveries[did]) && May(db, c.call)
    ensures var d := Leaves(db, c);
      && Sound(d) && d.users == db.users
      && did in d.deliveries && d.deliveries[did].status == UNMATCHED && SameDelivery(db.deliveries[did], d.deliveries[did])
      && forall x :: Blocks(d, x, did) ==> !Live(d.deliveries[x], LastInstant(db.deliveries[did]))
  {
    hide Valid, RowsFiled, Worthless, Live, Blocks, Selects, Aborts, May, Leaves, StillPayable, Acceptable;
    var row := db.deliveries[did];
    PayableIsDated(db, did, from);
    var soonest := row.body.occurredAt - MAX_EVENT_FUTURE_MS;
    var first := if from <= soonest then soonest else from;
    WindowsOfOneLength(row, row, from, from);
    FilterSelects(db, did);
    forall x | x in db.deliveries && Selects(FilterFor(row), db.deliveries[x]) ensures !Aborts(db, x, first) {
      UnknownDoesNotAbort(db, did, x, first);
    }
    c := SweepGoesThrough(db, FilterFor(row), first);
    var d := Leaves(db, c);
    assert Placed(db, d, did, first);
    forall x | Blocks(d, x, did) ensures x in d.deliveries && !Live(d.deliveries[x], LastInstant(row)) {
      BlockerIsGone(db, d, did, x, from, first);
      BlocksIsStored(d, x, did);
    }
  }

  lemma PayableIsDated(db: Db, did: string, from: int)
    requires did in db.deliveries && StillPayable(db, did, from)
    ensures Acceptable(db.deliveries[did].body) && db.deliveries[did].body.Event?
    ensures from - db.deliveries[did].body.occurredAt <= MAX_EVENT_AGE_MS
  {
    hide Releasable, Worthless;
  }

  lemma BlocksIsStored(db: Db, x: string, did: string)
    requires Blocks(db, x, did)
    ensures x in db.deliveries
  {
    hide Acceptable, Worthless;
  }

  lemma UnknownUserCredits(db: Db, did: string, from: int)
    requires Sound(db) && did in db.deliveries && db.deliveries[did].status == UNMATCHED && StillPayable(db, did, from)
    requires db.deliveries[did].body.userRef !in db.users
    ensures CanBeCredited(db, db.deliveries[did].partner, db.deliveries[did].key, from)
  {
    hide Valid, RowsFiled, Evolves, StillPayable, Worthless, CanBeCredited, Live;
    var row := db.deliveries[did];
    PayableIsDated(db, did, from);
    var c := ShedBlockers(db, did, from);
    var d := Leaves(db, c);
    var last := LastInstant(row);
    UserThenSweepCredits(d, did, last);
    hide Leaves, May;
    Later(d, row.partner, row.key, last, c.now);
    CreditedAfter(db, c, row.partner, row.key, from);
  }

  lemma UserThenSweepCredits(db: Db, did: string, now: int)
    requires Sound(db) && did in db.deliveries && db.deliveries[did].status == UNMATCHED
    requires Acceptable(db.deliveries[did].body) && now == LastInstant(db.deliveries[did])
    requires db.deliveries[did].body.userRef !in db.users
    requires forall x :: Blocks(db, x, did) ==> !Live(db.deliveries[x], now)
    ensures CanBeCredited(db, db.deliveries[did].partner, db.deliveries[did].key, now)
  {
    hide Valid, RowsFiled, Evolves, Worthless, CanBeCredited;
    var row := db.deliveries[did];
    var c := Stamped(Edits(AddUser(row.body.userRef, row.body.userRef)), now);
    CallKeepsSound(db, c);
    var d := Leaves(db, c);
    forall b ensures Worthless(d, b) <==> Worthless(db, b) {
      SameWorth(db, d, b);
    }
    forall x | Blocks(d, x, did) ensures Blocks(db, x, did) && d.deliveries == db.deliveries {
    }
    RuleThenSweepCredits(d, did, now, now);
    CreditedAfter(db, c, row.partner, row.key, now);
  }

  lemma ParkedCredits(db: Db, did: string, from: int)
    requires Sound(db) && did in db.deliveries && db.deliveries[did].status == UNMATCHED && StillPayable(db, did, from)
    ensures CanBeCredited(db, db.deliveries[did].partner, db.deliveries[did].key, from)
  {
    hide Valid, RowsFiled, Worthless, CanBeCredited, Clear;
    AcceptableIsEvent(db.deliveries[did].body);
    if db.deliveries[did].body.userRef in db.users {
      var now :| from <= now && Clear(db, did, now);
      RuleThenSweepCredits(db, did, now, from);
    } else {
      UnknownUserCredits(db, did, from);
    }
  }

  // ----- Exactly when -----

  lemma OpenKeyCredits(db: Db, partner: string, key: string, from: int)
    requires Sound(db) && StillOpen(db, partner, key, from)
    ensures CanBeCredited(db, partner, key, from)
  {
    hide Valid, RowsFiled, StillPayable, KeyCredited, FindDelivery, CanBeCredited;
    var stored := FindDelivery(db, partner, key);
    if stored.None? {
      NothingStoredCredits(db, partner, key, from);
    } else if KeyCredited(db, partner, key) {
      CreditedAlready(db, partner, key, from);
    } else {
      PayableByStatus(db, stored.value, from);
    }
  }

  lemma PayableByStatus(db: Db, did: string, from: int)
    requires Sound(db) && did in db.deliveries && StillPayable(db, did, from)
    ensures CanBeCredited(db, db.deliveries[did].partner, db.deliveries[did].key, from)
  {
    hide Valid, RowsFiled, KeyCredited, CanBeCredited, Releasable, Worthless, Acceptable;
    var row := db.deliveries[did];
    if row.status == UNMATCHED {
      ParkedCredits(db, did, from);
    } else if row.status == PROCESSED {
      ProcessedHoldsKey(db, did);
      CreditedAlready(db, row.partner, row.key, from);
    } else {
      WaitingCredits(db, did, from);
    }
  }

  /** A row's key is never empty. */
  lemma CreditedKeyIsNotEmpty(db: Db, partner: string, key: string)
    requires Valid(db) && KeyCredited(db, partner, key)
    ensures key != ""
  {
    hide LedgerState, RedemptionInv, RulesInv, EarnsExplained, ProcessedCredited, DeliveriesUnique, EarnedBy;
    var i :| 0 <= i < |db.ledger| && HoldsKey(db.ledger[i], PARTNER_PREFIX + partner, Some(key));
    RowIsExplained(db, i, partner, key);
    var did :| did in db.deliveries && Received(db.deliveries[did], partner, key) && EarnedBy(db, db.ledger[i], db.deliveries[did]);
    assert db.deliveries[did].key == ResolveKey(db.deliveries[did].body);
  }

  /** From any reachable state, with no request in flight and the time being `from`: some sequence of requests,
      backfills, edits and anything else credits the key if and only if nothing is stored under it, or what is
      stored has been credited already, or it holds an event that is acceptable, at most ninety days old and not
      priced at nothing or less, whose delivery is not REJECTED and, if parked, can be released. */
  lemma KeyIsCreditableExactly(acts: seq<Action>, partner: string, key: string, from: int)
    requires IsRun(START, acts)
    ensures var db := After(START, acts).db;
      CanBeCredited(db, partner, key, from) <==> StillOpen(db, partner, key, from)
  {
    ReachableIsSound(acts);
    var db := After(START, acts).db;
    hide IsRun, After, Sound, StillOpen, CanBeCredited;
    OpenIsNecessary(db, partner, key, from);
    if StillOpen(db, partner, key, from) {
      OpenKeyCredits(db, partner, key, from);
    }
  }

  lemma OpenIsNecessary(db: Db, partner: string, key: string, from: int)
    requires Sound(db)
    ensures CanBeCredited(db, partner, key, from) ==> StillOpen(db, partner, key, from)
  {
    hide Valid, RowsFiled, StillPayable, KeyCredited, Chronicle, Finally, FindDelivery;
    if CanBeCredited(db, partner, key, from) {
      var calls :| Chronicle(db, calls, from) && KeyCredited(Finally(db, calls), partner, key);
      var stored := FindDelivery(db, partner, key);
      if stored.Some? {
        HopeWasThere(db, calls, stored.value, from);
      } else {
        ChronicleKeepsSound(db, calls, from);
        CreditedKeyIsNotEmpty(Finally(db, calls), partner, key);
      }
    }
  }

  lemma {:induction false} ChronicleKeepsSound(db: Db, calls: seq<Stamped>, from: int)
    requires Sound(db) && Chronicle(db, calls, from)
    ensures Sound(Finally(db, calls))
    decreases |calls|
  {
    hide Sound, May, Leaves, Evolves;
    if calls != [] {
      CallKeepsSound(db, calls[0]);
      ChronicleKeepsSound(Leaves(db, calls[0]), calls[1..], calls[0].now);
    }
  }
}
