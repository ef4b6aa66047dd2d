/** Whatever the order of deliveries, retries, parks and backfills, the points a user has earned are what
    the distinct events are worth. */
module Replaying {
  import opened Schema
  import opened Earning
  import opened Ledger
  import opened Redeeming
  import opened Webhook
  import opened Atoms
  import opened System
  import opened Reachable
  import opened Guarantees
  import opened Honest
  import opened Ingestion

  /** A distinct partner event, however many times it was delivered. */
  datatype PartnerEvent = PartnerEvent(partner: string, key: string, body: Body)

  function EventOf(d: Delivery): PartnerEvent {
    PartnerEvent(d.partner, d.key, d.body)
  }

  function Events(db: Db): set<PartnerEvent> {
    set did | did in db.deliveries :: EventOf(db.deliveries[did])
  }

  function EarnedPoints(u: string): Entry -> bool {
    (e: Entry) => e.kind == EARN && e.userId == u
  }

  /** What an event is worth to a user: the points of the rule in force when it happened. */
  function Worth(users: map<string, string>, rules: seq<Rule>, u: string): PartnerEvent -> int {
    (ev: PartnerEvent) =>
      if Acceptable(ev.body) && ev.body.userRef in users && users[ev.body.userRef] == u then
        var rule := ResolveRule(rules, ev.body.activityType, ev.body.occurredAt);
        if rule.Some? then rule.value.points else 0
      else 0
  }

  ghost function Total(evs: set<PartnerEvent>, worth: PartnerEvent -> int): int {
    if evs == {} then 0
    else
      var ev :| ev in evs;
      worth(ev) + Total(evs - {ev}, worth)
  }

  lemma {:induction false} TotalSplits(evs: set<PartnerEvent>, ev: PartnerEvent, worth: PartnerEvent -> int)
    requires ev in evs
    ensures Total(evs, worth) == worth(ev) + Total(evs - {ev}, worth)
    decreases evs
  {
    var x :| x in evs && Total(evs, worth) == worth(x) + Total(evs - {x}, worth);
    if x != ev {
      TotalSplits(evs - {x}, ev, worth);
      TotalSplits(evs - {ev}, x, worth);
      assert evs - {x} - {ev} == evs - {ev} - {x};
    }
  }

  lemma {:induction false} TotalOfWorthless(evs: set<PartnerEvent>, some: set<PartnerEvent>, worth: PartnerEvent -> int)
    requires some <= evs && forall ev :: ev in evs && ev !in some ==> worth(ev) == 0
    ensures Total(evs, worth) == Total(some, worth)
    decreases evs
  {
    if evs == some {
    } else {
      var ev :| ev in evs && ev !in some;
      TotalSplits(evs, ev, worth);
      TotalOfWorthless(evs - {ev}, some, worth);
    }
  }

  /** The row is the event's credit. */
  predicate Pays(db: Db, e: Entry, ev: PartnerEvent) {
    && Acceptable(ev.body)
    && e.kind == EARN && e.source == PARTNER_PREFIX + ev.partner && e.eventId == Some(ev.key)
    && ev.body.userRef in db.users && e.userId == db.users[ev.body.userRef]
    && PricedBy(db.rules, e, ev.body)
  }

  lemma EarnedByIsPays(db: Db, e: Entry, d: Delivery)
    ensures EarnedBy(db, e, d) <==> Pays(db, e, EventOf(d))
  {
  }

  ghost predicate PaidIn(db: Db, n: nat, ev: PartnerEvent)
    requires n <= |db.ledger|
  {
    exists i :: 0 <= i < n && Pays(db, db.ledger[i], ev)
  }

  ghost function PaidEvents(db: Db, n: nat): set<PartnerEvent>
    requires n <= |db.ledger|
  {
    set ev | ev in Events(db) && PaidIn(db, n, ev)
  }

  lemma PaysOneEvent(db: Db, e: Entry, a: PartnerEvent, b: PartnerEvent)
    requires DeliveryInv(db) && a in Events(db) && b in Events(db) && Pays(db, e, a) && Pays(db, e, b)
    ensures a == b
  {
    hide Acceptable, PricedBy, EarnsExplained, ProcessedCredited, KeysResolved;
    assert (PARTNER_PREFIX + a.partner)[|PARTNER_PREFIX|..] == a.partner;
    assert (PARTNER_PREFIX + b.partner)[|PARTNER_PREFIX|..] == b.partner;
    var x :| x in db.deliveries && EventOf(db.deliveries[x]) == a;
    var y :| y in db.deliveries && EventOf(db.deliveries[y]) == b;
    assert Received(db.deliveries[x], db.deliveries[y].partner, db.deliveries[y].key);
  }

  lemma PaidOnce(db: Db, n: nat, ev: PartnerEvent)
    requires LedgerInv(db.ledger) && n < |db.ledger| && Pays(db, db.ledger[n], ev)
    ensures !PaidIn(db, n, ev)
  {
    hide WellLabelled, UndoesEarlier, PricedBy, Acceptable;
    forall i | 0 <= i < n ensures !Pays(db, db.ledger[i], ev) {
      assert !HoldsKey(db.ledger[i], db.ledger[n].source, db.ledger[n].eventId);
    }
  }

  ghost predicate NewlyPaid(db: Db, n: nat, u: string, ev: PartnerEvent)
    requires n < |db.ledger|
  {
    && ev in Events(db)
    && ev !in PaidEvents(db, n)
    && PaidEvents(db, n + 1) == PaidEvents(db, n) + {ev}
    && Worth(db.users, db.rules, u)(ev) == (if db.ledger[n].userId == u then db.ledger[n].delta else 0)
  }

  /** An EARN row pays one event that was not paid before, exactly its worth. */
  lemma NextRowPays(db: Db, n: nat, u: string)
    requires DeliveryInv(db) && LedgerInv(db.ledger) && n < |db.ledger| && db.ledger[n].kind == EARN
    ensures exists ev :: NewlyPaid(db, n, u, ev)
  {
    var e := db.ledger[n];
    assert Explained(db, e);
    var did :| did in db.deliveries && EarnedBy(db, e, db.deliveries[did]);
    var ev := EventOf(db.deliveries[did]);
    EarnedByIsPays(db, e, db.deliveries[did]);
    PaidOnce(db, n, ev);
    WorthOfPaid(db, e, ev, u);
    hide DeliveryInv, LedgerInv, Pays, Worth, EarnedBy;
    forall x | x in Events(db) ensures x in PaidEvents(db, n + 1) <==> x in PaidEvents(db, n) || x == ev {
      if Pays(db, e, x) {
        PaysOneEvent(db, e, x, ev);
      }
    }
    assert PaidEvents(db, n + 1) == PaidEvents(db, n) + {ev};
    assert NewlyPaid(db, n, u, ev);
  }

  lemma WorthOfPaid(db: Db, e: Entry, ev: PartnerEvent, u: string)
    requires Pays(db, e, ev)
    ensures Worth(db.users, db.rules, u)(ev) == (if e.userId == u then e.delta else 0)
  {
  }

  lemma {:induction false} RowsPayEvents(db: Db, n: nat, u: string)
    requires DeliveryInv(db) && LedgerInv(db.ledger) && n <= |db.ledger|
    ensures Sum(db.ledger[..n], EarnedPoints(u)) == Total(PaidEvents(db, n), Worth(db.users, db.rules, u))
    decreases n
  {
    hide DeliveryInv, LedgerInv, Pays, Worth;
    if n == 0 {
      assert PaidEvents(db, 0) == {};
    } else {
      RowsPayEvents(db, n - 1, u);
      var e := db.ledger[n - 1];
      assert db.ledger[..n] == db.ledger[..n - 1] + [e];
      SumPush(db.ledger[..n - 1], e, EarnedPoints(u));
      if e.kind == EARN {
        NextRowPays(db, n - 1, u);
        var ev :| NewlyPaid(db, n - 1, u, ev);
        TotalSplits(PaidEvents(db, n), ev, Worth(db.users, db.rules, u));
        assert PaidEvents(db, n) - {ev} == PaidEvents(db, n - 1);
      } else {
        OtherRowsPayNothing(db, n - 1);
      }
    }
  }

  lemma OtherRowsPayNothing(db: Db, n: nat)
    requires n < |db.ledger| && db.ledger[n].kind != EARN
    ensures PaidEvents(db, n + 1) == PaidEvents(db, n)
  {
    hide PricedBy, Acceptable;
  }

  /** Nothing that could be priced now is still waiting: no such delivery is RECEIVED, FAILED or UNMATCHED. */
  ghost predicate Drained(db: Db) {
    forall did :: did in db.deliveries && Priceable(db, db.deliveries[did].body) ==>
      db.deliveries[did].status in {PROCESSED, REJECTED}
  }

  ghost predicate AllPaid(db: Db, u: string) {
    forall ev :: ev in Events(db) && Worth(db.users, db.rules, u)(ev) != 0 ==> PaidIn(db, |db.ledger|, ev)
  }

  lemma DrainedIsPaid(db: Db, u: string)
    requires ProcessedCredited(db) && RowsHonest(db) && Drained(db)
    ensures AllPaid(db, u)
  {
    hide PricedBy;
    forall ev | ev in Events(db) && Worth(db.users, db.rules, u)(ev) != 0 ensures PaidIn(db, |db.ledger|, ev) {
      var did :| did in db.deliveries && EventOf(db.deliveries[did]) == ev;
      assert CreditedFor(db, db.deliveries[did]);
      var i :| 0 <= i < |db.ledger| && EarnedBy(db, db.ledger[i], db.deliveries[did]);
      EarnedByIsPays(db, db.ledger[i], db.deliveries[did]);
    }
  }

  /** In any run in which events are fresh when priced, once nothing that can be priced is waiting, the
      points a user has earned are the sum, over the distinct events received, of the points in force when
      each happened: no matter how often each was delivered, raced, retried, parked or replayed. */
  lemma EarnedIsWorth(acts: seq<Action>, u: string)
    requires IsRun(START, acts) && FreshRun(acts) && Drained(After(START, acts).db)
    ensures var db := After(START, acts).db;
      Sum(db.ledger, EarnedPoints(u)) == Total(Events(db), Worth(db.users, db.rules, u))
  {
    hide SysInv, RedemptionInv, RulesInv, LedgerInv, After, IsRun, FreshRun, Drained, Worth, Pays, TxHonest;
    ReachableValid(acts);
    RejectedMeansUnacceptable(acts);
    var db := After(START, acts).db;
    LedgerOfState(db);
    DrainedIsPaid(db, u);
    RowsPayEvents(db, |db.ledger|, u);
    assert db.ledger[..|db.ledger|] == db.ledger;
    TotalOfWorthless(Events(db), PaidEvents(db, |db.ledger|), Worth(db.users, db.rules, u));
  }

  /** Two histories that saw the same events, and ended with the same users and rules, earned the same.
      In particular, parking an event and replaying it once its rule or its user turns up earns what having
      had that rule or user from the start would have earned. */
  lemma OrderDoesNotMatter(acts: seq<Action>, others: seq<Action>, u: string)
    requires IsRun(START, acts) && FreshRun(acts) && Drained(After(START, acts).db)
    requires IsRun(START, others) && FreshRun(others) && Drained(After(START, others).db)
    requires var a, b := After(START, acts).db, After(START, others).db;
      && Events(a) == Events(b) && a.users == b.users
      && forall r :: r in a.rules <==> r in b.rules
    ensures Sum(After(START, acts).db.ledger, EarnedPoints(u)) == Sum(After(START, others).db.ledger, EarnedPoints(u))
  {
    hide Drained, SysInv, RedemptionInv, DeliveryInv, LedgerState, After, IsRun, FreshRun, Worth, NoClash;
    var a, b := After(START, acts).db, After(START, others).db;
    EarnedIsWorth(acts, u);
    EarnedIsWorth(others, u);
    ReachableValid(acts);
    ReachableValid(others);
    RulesDoNotClash(a);
    RulesDoNotClash(b);
    forall ev ensures Worth(a.users, a.rules, u)(ev) == Worth(b.users, b.rules, u)(ev) {
      SamePrices(a.users, a.rules, b.rules, u, ev);
    }
    SameTotals(Events(a), Worth(a.users, a.rules, u), Worth(b.users, b.rules, u));
  }

  lemma SamePrices(users: map<string, string>, rules: seq<Rule>, shuffled: seq<Rule>, u: string, ev: PartnerEvent)
    requires NoClash(rules) && NoClash(shuffled) && forall r :: r in rules <==> r in shuffled
    ensures Worth(users, rules, u)(ev) == Worth(users, shuffled, u)(ev)
  {
    hide NoClash;
    if ev.body.Event? {
      ResolveIgnoresRowOrder(rules, shuffled, ev.body.activityType, ev.body.occurredAt);
    }
  }

  lemma {:induction false} SameTotals(evs: set<PartnerEvent>, f: PartnerEvent -> int, g: PartnerEvent -> int)
    requires forall ev :: ev in evs ==> f(ev) == g(ev)
    ensures Total(evs, f) == Total(evs, g)
    decreases evs
  {
    if evs != {} {
      var ev :| ev in evs;
      TotalSplits(evs, ev, f);
      TotalSplits(evs, ev, g);
      SameTotals(evs - {ev}, f, g);
    }
  }
}
