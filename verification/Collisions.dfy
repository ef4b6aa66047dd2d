/** One key, two bodies: what is stored first under a partner's event key decides for good what the key is answered. */
module Collisions {
  import opened Schema
  import opened Earning
  import opened Ledger
  import opened Webhook
  import opened Atoms
  import opened System
  import opened Filed
  import opened Ingestion
  import opened Parking
  import opened Calls
  import opened Creditable
  import opened Crediting

  // ----- A rejected key is spent -----

  ghost predicate RejectedAt(db: Db, did: string, partner: string, key: string) {
    did in db.deliveries && Received(db.deliveries[did], partner, key) && db.deliveries[did].status == REJECTED
  }

  lemma CallKeepsRejected(db: Db, c: Stamped, did: string, partner: string, key: string)
    requires Sound(db) && May(db, c.call) && RejectedAt(db, did, partner, key)
    ensures RejectedAt(Leaves(db, c), did, partner, key)
  {
    hide Valid, RowsFiled, Candidates, Backfill, PostWebhook, MayEdit, Evolves;
    match c.call
    case Post(p, body, id, eid, outage) => PostLeavesBystanders(db, p, body, id, eid, c.now, outage, did);
    case Sweep(f, dids, ids) =>
      if Backfill(db, f, dids, Always(c.now), ids).1.Ok? {
        BackfillSweeps(db, f, dids, ids, c.now);
        RejectedIsNotSwept(db, Leaves(db, c), f, did, c.now);
      }
    case Edits(e) => EditIsQuiet(db, e);
    case Elsewhere(d) =>
  }

  lemma RejectedIsNotSwept(db: Db, d: Db, f: Filter, did: string, now: int)
    requires SweptAt(db, d, f, now) && did in db.deliveries && db.deliveries[did].status == REJECTED
    ensures did in d.deliveries && d.deliveries[did] == db.deliveries[did]
  {
    hide Sound, Placed, Aborts, SameDelivery;
  }

  lemma {:induction false} RejectedForGood(db: Db, calls: seq<Stamped>, did: string, partner: string, key: string, from: int)
    requires Sound(db) && Chronicle(db, calls, from) && RejectedAt(db, did, partner, key)
    ensures Sound(Finally(db, calls)) && RejectedAt(Finally(db, calls), did, partner, key)
    decreases |calls|
  {
    hide Sound, May, Leaves, Evolves, RejectedAt;
    if calls != [] {
      CallKeepsSound(db, calls[0]);
      CallKeepsRejected(db, calls[0], did, partner, key);
      RejectedForGood(Leaves(db, calls[0]), calls[1..], did, partner, key, calls[0].now);
    }
  }

  lemma RejectedIsMirrored(db: Db, did: string, partner: string, body: Body, other: string, eid: string, now: int, outage: bool)
    requires Sound(db) && RejectedAt(db, did, partner, ResolveKey(body))
    ensures var (d, r) := PostWebhook(db, partner, body, other, eid, now, outage);
      r.Ok? && r.value.code == 400 && d == Update(db, did, Bump)
  {
    StoredIsFound(db, did);
    TerminalRepeatsAreMirrored(db, partner, body, other, eid, now, outage);
    hide Sound, PostWebhook;
  }

  /** The first request under a key, made when its event is too old or dated too far ahead, is answered 400 and
      leaves the delivery REJECTED. */
  lemma UntimelyIsRejected(db: Db, partner: string, event: Body, did: string, eid: string, now: int)
    requires did !in db.deliveries && FindDelivery(db, partner, ResolveKey(event)).None?
    requires Acceptable(event) && !Fresh(event.occurredAt, now)
    ensures var (first, r) := PostWebhook(db, partner, event, did, eid, now, false);
      && r.Ok? && r.value.code == 400 && first.ledger == db.ledger && first.balances == db.balances
      && first.users == db.users && first.rules == db.rules
      && RejectedAt(first, did, partner, event.eventId)
  {
    hide FindDelivery, Fresh;
  }

  /** An event first sent when it is too old, or dated more than an hour ahead, has spent its key. Whatever is
      called afterwards, a resend once the event is timely included, every request under the key is answered 400
      and moves nothing, and the key is not credited. */
  lemma UntimelyEventSpendsItsKey(db: Db, partner: string, event: Body, did: string, eid: string, now: int,
                                  calls: seq<Stamped>, again: Body, other: string, id: string, later: int, outage: bool)
    requires Sound(db) && did !in db.deliveries && FindDelivery(db, partner, ResolveKey(event)).None?
    requires Acceptable(event) && !Fresh(event.occurredAt, now)
    requires Chronicle(PostWebhook(db, partner, event, did, eid, now, false).0, calls, now)
    requires ResolveKey(again) == event.eventId
    ensures var z := Finally(PostWebhook(db, partner, event, did, eid, now, false).0, calls);
      var (d, r) := PostWebhook(z, partner, again, other, id, later, outage);
      && r.Ok? && r.value.code == 400 && d.ledger == z.ledger && d.balances == z.balances
      && !KeyCredited(z, partner, event.eventId)
  {
    UntimelyIsRejected(db, partner, event, did, eid, now);
    PostKeepsSound(db, partner, event, did, eid, now, false);
    hide Sound, PostWebhook, Evolves, KeyCredited, FindDelivery, Fresh, Acceptable, RejectedAt, Chronicle, Finally, StillPayable;
    var first := PostWebhook(db, partner, event, did, eid, now, false).0;
    RejectedForGood(first, calls, did, partner, event.eventId, now);
    RejectedIsMirrored(Finally(first, calls), did, partner, again, other, id, later, outage);
    UncreditedStays(db, first, calls, did, partner, event.eventId, now);
  }

  /** Had it been sent first at another time: the first request under a key credits an acceptable event exactly
      when it is timely then, its user is known and its rule gives it points. */
  lemma FirstRequestCreditsExactly(db: Db, partner: string, event: Body, did: string, eid: string, now: int)
    requires Sound(db) && did !in db.deliveries && FindDelivery(db, partner, ResolveKey(event)).None?
    requires Acceptable(event) && !HasId(db.ledger, eid)
    ensures var d := PostWebhook(db, partner, event, did, eid, now, false).0;
      KeyCredited(d, partner, event.eventId) <==>
        Fresh(event.occurredAt, now) && Priceable(db, event) && RuleFor(db, event).value.points > 0
  {
    CapturedFirst(db, partner, event, did, now);
    PostKeepsSound(db, partner, event, did, eid, now, false);
    NothingStoredNothingCredited(db, partner, event.eventId);
    hide Sound, FindDelivery, KeyCredited, HasId, Fresh, Acceptable, Process, Capture, Evolves, Alter;
    var captured := Capture(db, partner, event, did, now).0;
    var d := PostWebhook(db, partner, event, did, eid, now, false).0;
    CaptureKeepsSound(db, partner, event, did, now);
    SameLedgerSameCredits(db, captured);
    SoundIsValid(captured);
    OutcomeIsDecided(captured, did, now, eid);
    if Process(captured, did, now, eid).1.Ok? {
      ProcessTouchesOne(captured, did, now, eid);
      if d.deliveries[did].status == PROCESSED {
        SoundIsValid(d);
        ProcessedHoldsKey(d, did);
      } else if KeyCredited(d, partner, event.eventId) {
        ProcessCreditsOwn(captured, did, now, eid, partner, event.eventId);
      }
    } else {
      SameLedgerSameCredits(db, Update(captured, did, Fail));
    }
  }

  lemma SoundIsValid(db: Db)
    requires Sound(db)
    ensures Valid(db)
  {
    hide Valid, RowsFiled;
  }

  lemma CaptureKeepsSound(db: Db, partner: string, body: Body, did: string, at: int)
    requires Sound(db) && Capture(db, partner, body, did, at).1.Ok?
    ensures Sound(Capture(db, partner, body, did, at).0)
  {
    hide Valid, RowsFiled, Evolves, Capture;
    CaptureKeepsValid(db, partner, body, did, at);
    CaptureKeepsFiled(db, partner, body, did, at);
  }

  lemma CapturedFirst(db: Db, partner: string, body: Body, did: string, at: int)
    requires did !in db.deliveries && FindDelivery(db, partner, ResolveKey(body)).None?
    ensures Capture(db, partner, body, did, at) ==
      (db.(deliveries := db.deliveries[did := NewDelivery(partner, body, at)]), Ok(Captured(did, ResolveKey(body), false, RECEIVED)))
  {
    hide FindDelivery;
  }

  lemma UncreditedStays(db: Db, first: Db, calls: seq<Stamped>, did: string, partner: string, key: string, now: int)
    requires Sound(db) && Sound(first) && first.ledger == db.ledger && FindDelivery(db, partner, key).None?
    requires Chronicle(first, calls, now) && RejectedAt(first, did, partner, key)
    ensures !KeyCredited(Finally(first, calls), partner, key)
  {
    hide Sound, KeyCredited, FindDelivery, Chronicle, Finally, Releasable, Worthless;
    NothingStoredNothingCredited(db, partner, key);
    SameLedgerSameCredits(db, first);
    if KeyCredited(Finally(first, calls), partner, key) {
      HopeWasThere(first, calls, did, now);
    }
  }

  lemma NothingStoredNothingCredited(db: Db, partner: string, key: string)
    requires Sound(db) && FindDelivery(db, partner, key).None?
    ensures !KeyCredited(db, partner, key)
  {
    hide Valid, RowsFiled, EarnedBy;
    forall i | 0 <= i < |db.ledger| ensures !HoldsKey(db.ledger[i], PARTNER_PREFIX + partner, Some(key)) {
      if HoldsKey(db.ledger[i], PARTNER_PREFIX + partner, Some(key)) {
        RowIsExplained(db, i, partner, key);
      }
    }
  }

  // ----- Made-up keys -----

  /** The body has no usable event id, so a key is made up for it. */
  predicate Nameless(body: Body) {
    || body.Malformed?
    || (body.Invalid? && (body.eventIdField.None? || body.eventIdField.value == ""))
    || (body.Event? && body.eventId == "")
  }

  /** A made-up key meets a real event id exactly when the id is that text: nothing excludes the prefix. */
  lemma MadeUpKeyMeetsEventId(nameless: Body, event: Body)
    requires Nameless(nameless) && Acceptable(event)
    ensures ResolveKey(nameless) == ResolveKey(event) <==> event.eventId == UNPARSED_PREFIX + nameless.digest
    ensures !Acceptable(nameless)
  {
  }

  /** Garbage first, then the event whose id is its made-up key: the event is answered 400 from the garbage, neither
      call adds a ledger row, and no call ever will: the key is shut. */
  lemma CollidingEventIsLost(db: Db, partner: string, nameless: Body, event: Body, did: string, eid: string, now: int,
                             other: string, id: string, later: int, from: int)
    requires Sound(db) && did !in db.deliveries && FindDelivery(db, partner, ResolveKey(nameless)).None?
    requires Nameless(nameless) && Acceptable(event) && event.eventId == UNPARSED_PREFIX + nameless.digest
    ensures var (first, _) := PostWebhook(db, partner, nameless, did, eid, now, false);
      var (d, r) := PostWebhook(first, partner, event, other, id, later, false);
      && r.Ok? && r.value.code == 400 && d.ledger == db.ledger && d.balances == db.balances
      && !CanBeCredited(d, partner, event.eventId, from)
  {
    MadeUpKeyMeetsEventId(nameless, event);
    GarbageIsRejected(db, partner, nameless, did, eid, now);
    PostKeepsSound(db, partner, nameless, did, eid, now, false);
    hide Sound, PostWebhook, Evolves, FindDelivery, CanBeCredited, Acceptable, Nameless;
    var first := PostWebhook(db, partner, nameless, did, eid, now, false).0;
    RejectedIsMirrored(first, did, partner, event, other, id, later, false);
    PostKeepsSound(first, partner, event, other, id, later, false);
    var d := PostWebhook(first, partner, event, other, id, later, false).0;
    NothingStoredNothingCredited(db, partner, event.eventId);
    SameLedgerSameCredits(db, d);
    ShutKey(d, did, partner, event.eventId, from);
    OpenIsNecessary(d, partner, event.eventId, from);
  }

  lemma GarbageIsRejected(db: Db, partner: string, body: Body, did: string, eid: string, now: int)
    requires did !in db.deliveries && FindDelivery(db, partner, ResolveKey(body)).None? && !Acceptable(body)
    ensures var first := PostWebhook(db, partner, body, did, eid, now, false).0;
      RejectedAt(first, did, partner, ResolveKey(body)) && first.ledger == db.ledger && first.balances == db.balances
  {
    hide FindDelivery, Acceptable;
  }

  lemma ShutKey(db: Db, did: string, partner: string, key: string, from: int)
    requires Sound(db) && RejectedAt(db, did, partner, key) && !KeyCredited(db, partner, key)
    ensures !StillOpen(db, partner, key, from)
  {
    StoredIsFound(db, did);
    hide Sound, KeyCredited, Releasable, Worthless, FindDelivery;
  }
}
