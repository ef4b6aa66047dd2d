/** Sequences of whole calls, each at an instant no earlier than the one before: what ingestion can still do when no
    request is in flight. */
module Calls {
  import opened Schema
  import opened Earning
  import opened Ledger
  import opened Redeeming
  import opened Webhook
  import opened Atoms
  import opened System
  import opened Reachable
  import opened Honest
  import opened Filed
  import opened Ingestion
  import opened Parking

  /** A webhook request, a backfill, an edit of users, rules or rewards, and anything else the service commits:
      redemptions, allocations and corrections, none of which earns points from a partner or touches a delivery. */
  datatype Call =
    | Post(partner: string, body: Body, did: string, eid: string, outage: bool)
    | Sweep(f: Filter, dids: seq<string>, ids: string -> string)
    | Edits(e: Edit)
    | Elsewhere(d: Db)

  datatype Stamped = Stamped(call: Call, now: int)

  /** A clock that stands still. */
  function Always(now: int): string -> int {
    (_: string) => now
  }

  ghost predicate May(db: Db, c: Call) {
    match c
    case Post(_, _, _, _, _) => true
    case Sweep(f, dids, _) => Candidates(db, f, dids)
    case Edits(e) => MayEdit(Sys(db, map[], map[]), e)
    case Elsewhere(d) => EarnsNothing(db, d)
  }

  ghost predicate EarnsNothing(db: Db, d: Db) {
    && Valid(d) && Evolves(db, d)
    && d.deliveries == db.deliveries && d.users == db.users && d.rules == db.rules
    && forall i :: |db.ledger| <= i < |d.ledger| ==> d.ledger[i].kind != EARN
  }

  /** The database once the call has returned: a backfill that throws has been rolled back. */
  ghost function Leaves(db: Db, c: Stamped): Db {
    match c.call
    case Post(partner, body, did, eid, outage) => PostWebhook(db, partner, body, did, eid, c.now, outage).0
    case Sweep(f, dids, ids) =>
      var (d, r) := Backfill(db, f, dids, Always(c.now), ids);
      if r.Ok? then d else db
    case Edits(e) => Edited(db, e)
    case Elsewhere(d) => d
  }

  /** The calls can be made one after another from here on, and the clock never goes back. */
  ghost predicate Chronicle(db: Db, calls: seq<Stamped>, from: int)
    decreases |calls|
  {
    calls == [] ||
    (from <= calls[0].now && May(db, calls[0].call) && Chronicle(Leaves(db, calls[0]), calls[1..], calls[0].now))
  }

  ghost function Finally(db: Db, calls: seq<Stamped>): Db
    decreases |calls|
  {
    if calls == [] then db else Finally(Leaves(db, calls[0]), calls[1..])
  }

  lemma ChronicleOf(db: Db, c: Stamped, rest: seq<Stamped>, from: int)
    requires from <= c.now && May(db, c.call) && Chronicle(Leaves(db, c), rest, c.now)
    ensures Chronicle(db, [c] + rest, from) && Finally(db, [c] + rest) == Finally(Leaves(db, c), rest)
  {
    hide May, Leaves;
    assert ([c] + rest)[1..] == rest;
  }

  /** What every reachable state satisfies and every call keeps. */
  ghost predicate Sound(db: Db) {
    Valid(db) && RowsFiled(db)
  }

  lemma ReachableIsSound(acts: seq<Action>)
    requires IsRun(START, acts)
    ensures Sound(After(START, acts).db)
  {
    hide SysInv, RowsFiled, TxFiled, Valid, After, IsRun;
    ParkedIsFiled(acts);
    SysValid(After(START, acts));
  }

  // ----- Every call keeps what every state satisfies -----

  lemma ProcessFilesIn(db: Db, did: string, now: int, eid: string)
    requires Process(db, did, now, eid).1.Ok? && did in Process(db, did, now, eid).0.deliveries
    requires Process(db, did, now, eid).0.deliveries[did].status == UNMATCHED
    ensures Columned(Process(db, did, now, eid).0.deliveries[did])
  {
    hide Fresh, ResolveRule, Append;
    var body := db.deliveries[did].body;
    if Acceptable(body) {
      var touched := Update(db, did, Touch(body.userRef, body.activityType));
      ProcessTouchesOne(db, did, now, eid);
      PriceKeepsColumns(touched, did, now, eid);
    }
  }

  lemma PriceKeepsColumns(db: Db, did: string, now: int, eid: string)
    requires did in db.deliveries && Acceptable(db.deliveries[did].body) && Price(db, did, now, eid).1.Ok?
    requires Columned(db.deliveries[did]) && Price(db, did, now, eid).1.value.Parked?
    ensures did in Price(db, did, now, eid).0.deliveries && Columned(Price(db, did, now, eid).0.deliveries[did])
  {
    hide Fresh, ResolveRule, Acceptable;
  }

  lemma FiledElsewhere(db: Db, d: Db, did: string)
    requires RowsFiled(db) && did in db.deliveries && did in d.deliveries
    requires d.deliveries == db.deliveries[did := d.deliveries[did]]
    requires d.deliveries[did].status == UNMATCHED ==> Columned(d.deliveries[did])
    ensures RowsFiled(d)
  {
    hide Columned;
  }

  lemma ProcessKeepsFiled(db: Db, did: string, now: int, eid: string)
    requires RowsFiled(db) && Process(db, did, now, eid).1.Ok?
    ensures RowsFiled(Process(db, did, now, eid).0)
  {
    hide Process, RowsFiled, Columned, SameDelivery;
    ProcessTouchesOne(db, did, now, eid);
    var d := Process(db, did, now, eid).0;
    if d.deliveries[did].status == UNMATCHED {
      ProcessFilesIn(db, did, now, eid);
    }
    FiledElsewhere(db, d, did);
  }

  lemma CaptureKeepsFiled(db: Db, partner: string, body: Body, did: string, at: int)
    requires RowsFiled(db) && Capture(db, partner, body, did, at).1.Ok?
    ensures RowsFiled(Capture(db, partner, body, did, at).0)
  {
    hide FindDelivery, Acceptable;
  }

  lemma FailKeepsFiled(db: Db, did: string)
    requires RowsFiled(db) && did in db.deliveries
    ensures RowsFiled(Update(db, did, Fail))
  {
    hide Columned;
  }

  lemma PostKeepsSound(db: Db, partner: string, body: Body, did: string, eid: string, now: int, outage: bool)
    requires Sound(db)
    ensures var d := PostWebhook(db, partner, body, did, eid, now, outage).0; Sound(d) && Evolves(db, d)
  {
    PostWebhookKeepsValid(db, partner, body, did, eid, now, outage);
    hide Valid, RowsFiled, Evolves, Process, Capture, Update;
    if Capture(db, partner, body, did, now).1.Ok? {
      CaptureShape(db, partner, body, did, now);
      CaptureKeepsFiled(db, partner, body, did, now);
      var (captured, c) := Capture(db, partner, body, did, now);
      FailKeepsFiled(captured, c.value.deliveryId);
      if Process(captured, c.value.deliveryId, now, eid).1.Ok? {
        ProcessKeepsFiled(captured, c.value.deliveryId, now, eid);
      }
    }
  }

  lemma {:induction false} ReplayKeepsFiled(db: Db, dids: seq<string>, c: Counts, clock: string -> int, ids: string -> string)
    requires RowsFiled(db) && Replay(db, dids, c, clock, ids).1.Ok?
    ensures RowsFiled(Replay(db, dids, c, clock, ids).0)
    decreases |dids|
  {
    hide Process, RowsFiled;
    if dids != [] {
      if dids[0] !in db.deliveries || db.deliveries[dids[0]].status != UNMATCHED {
        ReplayKeepsFiled(db, dids[1..], c.(skipped := c.skipped + 1), clock, ids);
      } else {
        var claimed := Update(db, dids[0], Reclaim);
        ClaimKeepsFiled(db, dids[0]);
        ProcessKeepsFiled(claimed, dids[0], clock(dids[0]), ids(dids[0]));
        var (mid, r) := Process(claimed, dids[0], clock(dids[0]), ids(dids[0]));
        ReplayKeepsFiled(mid, dids[1..], Count(c, r.value), clock, ids);
      }
    }
  }

  lemma ClaimKeepsFiled(db: Db, did: string)
    requires RowsFiled(db) && did in db.deliveries
    ensures RowsFiled(Update(db, did, Reclaim))
  {
    hide Columned;
  }

  lemma BackfillKeepsSound(db: Db, f: Filter, dids: seq<string>, clock: string -> int, ids: string -> string)
    requires Sound(db) && Backfill(db, f, dids, clock, ids).1.Ok?
    ensures Sound(Backfill(db, f, dids, clock, ids).0) && Evolves(db, Backfill(db, f, dids, clock, ids).0)
  {
    hide Replay, Valid, RowsFiled, Evolves;
    ReplayKeepsValid(db, dids, Counts(|dids|, 0, 0, 0, 0), clock, ids);
    ReplayKeepsFiled(db, dids, Counts(|dids|, 0, 0, 0, 0), clock, ids);
  }

  lemma EditKeepsSound(db: Db, e: Edit)
    requires Sound(db) && MayEdit(Sys(db, map[], map[]), e)
    ensures Sound(Edited(db, e)) && Evolves(db, Edited(db, e))
  {
    hide Valid, Evolves, MayEdit, Columned;
    EditKeepsValid(Sys(db, map[], map[]), e);
  }

  lemma CallKeepsSound(db: Db, c: Stamped)
    requires Sound(db) && May(db, c.call)
    ensures Sound(Leaves(db, c)) && Evolves(db, Leaves(db, c))
  {
    hide Valid, Evolves, Backfill, PostWebhook, Edited, MayEdit, Candidates, Columned;
    EvolvesReflexive(db);
    match c.call
    case Post(partner, body, did, eid, outage) => PostKeepsSound(db, partner, body, did, eid, c.now, outage);
    case Sweep(f, dids, ids) =>
      if Backfill(db, f, dids, Always(c.now), ids).1.Ok? {
        BackfillKeepsSound(db, f, dids, Always(c.now), ids);
      }
    case Edits(e) => EditKeepsSound(db, e);
    case Elsewhere(d) =>
  }
}
