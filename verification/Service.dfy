/** The services as they run: one store whose tables the methods update in place, statement by statement.
    Each method is shown to do what its specification function says. Generated identifiers, the clock, and
    what third parties answer are parameters. */
module Service {
  import opened Schema
  import opened Earning
  import opened Ledger
  import opened Redeeming
  import opened Webhook
  import opened Atoms
  import opened Contention
  import opened Allocation
  import opened Ingestion

  /** Whether each insert of an idempotency key met an uncommitted rival that then rolled back: such an insert
      adds no row, and the read after it finds none. */
  datatype Rivals = Rivals(first: bool, second: bool)

  datatype Claim = Inserted | Held(redemptionId: string)

  class Store {
    var users: map<string, string>
    var rules: seq<Rule>
    var ledger: seq<Entry>
    var balances: map<string, int>
    var rewards: map<string, Reward>
    var redemptions: map<string, Redemption>
    var deliveries: map<string, Delivery>
    /** Inserts of idempotency keys attempted so far. */
    ghost var inserts: nat

    /** The tables as one value. */
    function View(): Db
      reads this
    {
      Db(users, rules, ledger, balances, rewards, redemptions, deliveries)
    }

    /** The class invariant: everything the tables satisfy between transactions. */
    ghost predicate Valid()
      reads this
    {
      Atoms.Valid(View())
    }

    constructor ()
      ensures View() == EMPTY_DB && Valid()
    {
      EmptyIsValid();
      inserts := 0;
      users, rules, ledger, balances, rewards, redemptions, deliveries := map[], [], [], map[], map[], map[], map[];
    }

    /** Rolling a transaction back: the tables as they were when it began. */
    method Restore(saved: Db)
      modifies this
      ensures View() == saved && inserts == old(inserts)
    {
      users, rules, ledger, balances := saved.users, saved.rules, saved.ledger, saved.balances;
      rewards, redemptions, deliveries := saved.rewards, saved.redemptions, saved.deliveries;
    }

    // ----- The ledger -----

    /** Materialise the balance row, then read it under its lock. */
    method LockBalance(u: string) returns (r: Result<int>)
      modifies this`balances
      ensures r.Ok? <==> u in old(balances) || UserExists(old(View()), u)
      ensures r.Ok? ==> View() == Materialise(old(View()), u) && r.value == Balance(old(View()), u)
      ensures r.Err? ==> View() == old(View()) && r.error == UnknownUser(u)
    {
      if u !in balances {
        if u !in users.Values {
          return Err(UnknownUser(u));
        }
        balances := balances[u := 0];
      }
      return Ok(balances[u]);
    }

    /** INSERT ... ON CONFLICT DO NOTHING on the dedupe key: the row that holds the key already, or None once
        this one has been inserted. */
    method InsertEntry(input: AppendInput, id: string, at: int) returns (r: Result<Option<string>>)
      modifies this`ledger
      ensures var db := old(View());
        r == (if !RowChecks(input.delta, input.kind) then Err(CheckViolation)
              else if FindKey(db.ledger, input.source, input.eventId).Some? then Ok(FindKey(db.ledger, input.source, input.eventId))
              else if HasId(db.ledger, id) || (input.reversesId.Some? && HasReversal(db.ledger, input.reversesId.value)) then
                Err(UniqueViolation)
              else if !ReferencesExist(db, input) then Err(ForeignKeyViolation)
              else Ok(None))
      ensures ledger == (if r == Ok(None) then old(ledger) + [NewRow(input, id, at)] else old(ledger))
    {
      hide RowChecks, ReferencesExist, HasId, HasReversal, FindKey;
      if !RowChecks(input.delta, input.kind) {
        return Err(CheckViolation);
      }
      var original := FindKey(ledger, input.source, input.eventId);
      if original.Some? {
        return Ok(original);
      }
      if HasId(ledger, id) || (input.reversesId.Some? && HasReversal(ledger, input.reversesId.value)) {
        return Err(UniqueViolation);
      }
      if !ReferencesExist(View(), input) {
        return Err(ForeignKeyViolation);
      }
      ledger := ledger + [NewRow(input, id, at)];
      return Ok(None);
    }

    /** Lock, then claim, then check, then move. */
    method AppendEntry(input: AppendInput, id: string, at: int) returns (r: Result<Appended>)
      modifies this`balances, this`ledger
      ensures (View(), r) == Append(old(View()), input, id, at)
      ensures old(Valid()) && Admissible(AtomAppend(input, id, at), old(View())) && r.Ok? ==> Valid()
    {
      hide Admissible, Atoms.Valid, RowChecks, ReferencesExist, HasId, HasReversal, FindKey, UserExists;
      AppendKeeps(View(), input, id, at);
      var locked := LockBalance(input.userId);
      if locked.Err? {
        return Err(locked.error);
      }
      var before := locked.value;
      var claimed := InsertEntry(input, id, at);
      if claimed.Err? {
        return Err(claimed.error);
      }
      if claimed.value.Some? {
        return Ok(Appended(claimed.value.value, before, true));
      }
      var after := before + input.delta;
      if input.enforceNonNegative && input.delta < 0 && after < 0 {
        return Err(InsufficientPoints(input.userId, before, -input.delta));
      }
      balances := balances[input.userId := after];
      return Ok(Appended(id, after, false));
    }

    method ReverseEntry(originalId: string, id: string, at: int) returns (r: Result<Reversed>)
      modifies this`balances, this`ledger
      ensures (View(), r) == Reverse(old(View()), originalId, id, at)
    {
      hide Atoms.Valid, Admissible;
      var original := FindRow(ledger, originalId);
      if original.None? {
        return Err(EntryNotFound(originalId));
      }
      var appended := AppendEntry(ReversalOf(original.value), id, at);
      if appended.Err? {
        return Err(appended.error);
      }
      return Ok(Reversed(appended.value, !appended.value.duplicate));
    }

    // ----- Redemption -----

    method FindRedemptionByKey(userId: string, key: string) returns (r: Option<string>)
      requires ClaimsUnique(View())
      ensures r == FindByKey(View(), userId, key)
    {
      var remaining := redemptions.Keys;
      while remaining != {}
        invariant remaining <= redemptions.Keys
        invariant forall rid :: rid in redemptions && rid !in remaining ==> !HoldsClaim(redemptions[rid], userId, key)
        decreases |remaining|
      {
        var rid :| rid in remaining;
        if HoldsClaim(redemptions[rid], userId, key) {
          return Some(rid);
        }
        remaining := remaining - {rid};
      }
      return None;
    }

    /** INSERT ... ON CONFLICT DO NOTHING on the key. */
    method InsertClaim(rid: string, row: Redemption, rival: bool) returns (inserted: bool)
      requires ClaimsUnique(View()) && rid !in redemptions
      modifies this`redemptions, this`inserts
      ensures inserts == old(inserts) + 1
      ensures inserted <==> !rival && FindByKey(old(View()), row.userId, row.key).None?
      ensures View() == (if inserted then old(View()).(redemptions := old(redemptions)[rid := row]) else old(View()))
    {
      inserts := inserts + 1;
      var holder := FindRedemptionByKey(row.userId, row.key);
      if holder.Some? || rival {
        return false;
      }
      redemptions := redemptions[rid := row];
      return true;
    }

    /** Insert, else read the holder, and if there is none insert once more: never a third time. */
    method ClaimIdempotencyKey(rid: string, row: Redemption, rivals: Rivals) returns (r: Result<Claim>)
      requires ClaimsUnique(View()) && rid !in redemptions
      modifies this`redemptions, this`inserts
      ensures old(inserts) < inserts <= old(inserts) + 2
      ensures var holder := FindByKey(old(View()), row.userId, row.key);
        && (holder.Some? ==> inserts == old(inserts) + 1)
        && r == (if holder.Some? then Ok(Held(holder.value))
                 else if rivals.first && rivals.second then Err(KeyUnclaimable)
                 else Ok(Inserted))
      ensures View() == (if r == Ok(Inserted) then old(View()).(redemptions := old(redemptions)[rid := row]) else old(View()))
    {
      var inserted := InsertClaim(rid, row, rivals.first);
      if inserted {
        return Ok(Inserted);
      }
      var holder := FindRedemptionByKey(row.userId, row.key);
      if holder.Some? {
        return Ok(Held(holder.value));
      }
      inserted := InsertClaim(rid, row, rivals.second);
      if inserted {
        return Ok(Inserted);
      }
      holder := FindRedemptionByKey(row.userId, row.key);
      match holder
      case Some(redemptionId) => return Ok(Held(redemptionId));
      case None => return Err(KeyUnclaimable);
    }

    /** UPDATE rewards SET stock = stock - 1 WHERE stock > 0; whether a row was affected. */
    method DecrementStock(rw: string) returns (affected: bool)
      modifies this`rewards
      ensures affected <==> TakeUnit(old(View()), rw).Some?
      ensures View() == (if affected then TakeUnit(old(View()), rw).value else old(View()))
    {
      if rw in rewards && rewards[rw].stock.Some? && rewards[rw].stock.value > 0 {
        rewards := rewards[rw := rewards[rw].(stock := Some(rewards[rw].stock.value - 1))];
        return true;
      }
      return false;
    }

    /** UPDATE rewards SET stock = stock + 1 WHERE stock IS NOT NULL. */
    method IncrementStock(rw: string)
      modifies this`rewards
      ensures View() == ReturnUnit(old(View()), rw)
    {
      if rw in rewards && rewards[rw].stock.Some? {
        rewards := rewards[rw := rewards[rw].(stock := Some(rewards[rw].stock.value + 1))];
      }
    }

    /** Phase one, in the caller's transaction. */
    method Reserve(input: RedeemInput, rid: string, eid: string, at: int, rivals: Rivals) returns (r: Result<Reserved>)
      requires ClaimsUnique(View())
      modifies this`redemptions, this`rewards, this`balances, this`ledger, this`inserts
      ensures (View(), r) == if rivals == Rivals(true, true) && ReachesClaim(old(View()), input, rid)
                             then (old(View()), Err(KeyUnclaimable))
                             else Redeeming.Reserve(old(View()), input, rid, eid, at)
      ensures inserts <= old(inserts) + 2
      ensures old(Valid()) && r.Ok? ==> Valid()
    {
      hide Atoms.Valid, Admissible, Append, FindByKey, TakeUnit, Materialise, ClaimsUnique;
      ReserveKeeps(View(), input, rid, eid, at);
      var prior := FindRedemptionByKey(input.userId, input.key);
      if prior.Some? {
        return Ok(Replayed(prior.value, redemptions[prior.value], Balance(View(), input.userId)));
      }
      if input.rewardId !in rewards {
        return Err(RewardNotFound(input.rewardId));
      }
      var seen := rewards[input.rewardId];
      if !seen.active {
        return Err(RewardInactive);
      }
      var row := ClaimRow(input, seen);
      if rid in redemptions {
        return Err(UniqueViolation);
      }
      if !UserExists(View(), row.userId) {
        return Err(ForeignKeyViolation);
      }
      var claim := ClaimIdempotencyKey(rid, row, rivals);
      if claim.Err? {
        return Err(claim.error);
      }
      var locked := LockBalance(input.userId);
      if seen.stock.Some? {
        var affected := DecrementStock(input.rewardId);
        if !affected {
          return Err(OutOfStock);
        }
      }
      AppendErrors(View(), DebitInput(rid, row), eid, at);
      var entry := AppendEntry(DebitInput(rid, row), eid, at);
      if entry.Err? {
        return Err(entry.error);
      }
      return Ok(Claimed(Reservation(rid, entry.value.transactionId, row.rewardId), row, entry.value.balanceAfter));
    }

    /** Undo a reservation, in the caller's transaction. */
    method Compensate(v: Reservation, reason: string, eid: string, at: int) returns (r: Result<bool>)
      modifies this`redemptions, this`rewards, this`balances, this`ledger
      ensures (View(), r) == Redeeming.Compensate(old(View()), v, reason, eid, at)
      ensures old(Valid()) && Undoable(old(View()), v) && r.Ok? ==> Valid()
    {
      hide Atoms.Valid, Admissible, Undoable;
      CompensateKeeps(View(), v, reason, eid, at);
      if v.redemptionId !in redemptions || redemptions[v.redemptionId].status != RESERVED {
        return Ok(false);
      }
      redemptions := redemptions[v.redemptionId := redemptions[v.redemptionId].(status := FAILED, failureReason := Some(reason))];
      var reversed := ReverseEntry(v.entryId, eid, at);
      if reversed.Err? {
        return Err(reversed.error);
      }
      IncrementStock(v.rewardId);
      return Ok(true);
    }

    /** Both phases, each its own transaction. */
    method Redeem(input: RedeemInput, ids: Ids, at: int, f: Fulfilment, rivals: Rivals) returns (r: Result<RedemptionOutcome>)
      requires Valid() && (f.Unclaimable? <==> rivals == Rivals(true, true))
      modifies this
      ensures (View(), r) == Allocation.Redeem(old(View()), input, ids, at, f)
      ensures inserts <= old(inserts) + 2
      ensures Valid()
    {
      hide Redeeming.Reserve, Redeeming.Compensate, ClaimsUnique, Atoms.Valid, Undoable;
      ClaimsAreUnique(View());
      RedeemKeepsValid(View(), input, ids, at, f);
      var begun := View();
      var reserved := Reserve(input, ids.rid, ids.debit, at, rivals);
      if reserved.Err? {
        Restore(begun);
        return Err(reserved.error);
      }
      match reserved.value
      case Replayed(rid, row, balance) =>
        return Ok(Redeemed(rid, row.status, row.rewardName, row.cost, balance, row.fulfillmentRef, row.failureReason, true));
      case Claimed(v, row, balance) =>
        match f {
          case Issued(ref) =>
            redemptions := redemptions[ids.rid := redemptions[ids.rid].(status := FULFILLED, fulfillmentRef := Some(ref))];
            return Ok(Redeemed(ids.rid, FULFILLED, row.rewardName, row.cost, balance, Some(ref), None, false));
          case Refused(reason) =>
            var committed := View();
            CompensateErrors(committed, v, reason, ids.refund, at);
            var done := Compensate(v, reason, ids.refund, at);
            if done.Err? {
              Restore(committed);
              return Err(done.error);
            }
            return Ok(Redeemed(ids.rid, FAILED, row.rewardName, row.cost, Balance(View(), input.userId), None, Some(reason), false));
          case _ =>
            return Err(Infrastructure);
        }
    }

    // ----- Webhooks -----

    method LookupDelivery(partner: string, key: string) returns (r: Option<string>)
      requires DeliveriesUnique(View())
      ensures r == FindDelivery(View(), partner, key)
    {
      var remaining := deliveries.Keys;
      while remaining != {}
        invariant remaining <= deliveries.Keys
        invariant forall did :: did in deliveries && did !in remaining ==> !Received(deliveries[did], partner, key)
        decreases |remaining|
      {
        var did :| did in remaining;
        if Received(deliveries[did], partner, key) {
          return Some(did);
        }
        remaining := remaining - {did};
      }
      return None;
    }

    method AlterDelivery(did: string, c: Change)
      requires did in deliveries
      modifies this`deliveries
      ensures View() == Update(old(View()), did, c)
    {
      deliveries := deliveries[did := Alter(deliveries[did], c)];
    }

    /** Store what arrived, or count one more attempt of what had arrived already. */
    method CaptureDelivery(partner: string, body: Body, did: string, at: int) returns (r: Result<Captured>)
      requires DeliveriesUnique(View())
      modifies this`deliveries
      ensures (View(), r) == Capture(old(View()), partner, body, did, at)
      ensures old(Valid()) && r.Ok? ==> Valid()
    {
      hide Atoms.Valid;
      CaptureKeeps(View(), partner, body, did, at);
      var key := ResolveKey(body);
      var seen := LookupDelivery(partner, key);
      if seen.Some? {
        var status := deliveries[seen.value].status;
        AlterDelivery(seen.value, Bump);
        return Ok(Captured(seen.value, key, true, status));
      }
      if did in deliveries {
        return Err(UniqueViolation);
      }
      deliveries := deliveries[did := NewDelivery(partner, body, at)];
      return Ok(Captured(did, key, false, RECEIVED));
    }

    /** Interpret a stored delivery and credit it, in the caller's transaction. */
    method ProcessDelivery(did: string, now: int, eid: string) returns (r: Result<Outcome>)
      modifies this`deliveries, this`balances, this`ledger
      ensures (View(), r) == Process(old(View()), did, now, eid)
      ensures old(Valid()) && r.Ok? ==> Valid()
    {
      hide Atoms.Valid, Admissible;
      ProcessKeeps(View(), did, now, eid);
      if did !in deliveries {
        return Err(DeliveryNotFound(did));
      }
      var delivery := deliveries[did];
      var event := delivery.body;
      if !Acceptable(event) {
        AlterDelivery(did, Reject);
        return Ok(Rejected);
      }
      AlterDelivery(did, Touch(event.userRef, event.activityType));
      if now - event.occurredAt > MAX_EVENT_AGE_MS {
        AlterDelivery(did, Reject);
        return Ok(Rejected);
      }
      if event.occurredAt - now > MAX_EVENT_FUTURE_MS {
        AlterDelivery(did, Reject);
        return Ok(Rejected);
      }
      if event.userRef !in users {
        AlterDelivery(did, Park(UNKNOWN_USER));
        return Ok(Parked(UNKNOWN_USER));
      }
      var rule := ResolveRule(rules, event.activityType, event.occurredAt);
      if rule.None? {
        AlterDelivery(did, Park(NO_RULE));
        return Ok(Parked(NO_RULE));
      }
      var entry := AppendEntry(CreditInput(delivery.partner, event.eventId, users[event.userRef], rule.value), eid, now);
      if entry.Err? {
        return Err(entry.error);
      }
      AlterDelivery(did, Credited);
      return Ok(Processed(entry.value.transactionId, rule.value.points, entry.value.balanceAfter, entry.value.duplicate));
    }

    /** Claim each candidate and replay it, in the caller's transaction. `dids` is what the candidate query
        returned. */
    method BackfillUnmatched(f: Filter, dids: seq<string>, clock: string -> int, ids: string -> string) returns (r: Result<Counts>)
      modifies this`deliveries, this`balances, this`ledger
      ensures (View(), r) == Backfill(old(View()), f, dids, clock, ids)
      ensures old(Valid()) && r.Ok? ==> Valid()
    {
      hide Atoms.Valid;
      BackfillKeeps(View(), f, dids, clock, ids);
      if f.userRef.None? && f.activityType.None? {
        return Err(FilterRequired);
      }
      var counts := Counts(|dids|, 0, 0, 0, 0);
      for i := 0 to |dids|
        invariant Replay(View(), dids[i..], counts, clock, ids) == Backfill(old(View()), f, dids, clock, ids)
      {
        var did := dids[i];
        assert dids[i..][0] == did && dids[i..][1..] == dids[i + 1..];
        if did !in deliveries || deliveries[did].status != UNMATCHED {
          counts := counts.(skipped := counts.skipped + 1);
        } else {
          AlterDelivery(did, Reclaim);
          var outcome := ProcessDelivery(did, clock(did), ids(did));
          if outcome.Err? {
            return Err(outcome.error);
          }
          match outcome.value
          case Processed(_, _, _, _) => counts := counts.(processed := counts.processed + 1);
          case Parked(_) => counts := counts.(stillUnmatched := counts.stillUnmatched + 1);
          case Rejected => counts := counts.(rejected := counts.rejected + 1);
        }
      }
      return Ok(counts);
    }

    /** The route: capture in one transaction, process in another, and record a failure in a third. */
    method PostWebhook(partner: string, body: Body, did: string, eid: string, now: int, outage: bool) returns (r: Result<Response>)
      requires Valid()
      modifies this
      ensures (View(), r) == Webhook.PostWebhook(old(View()), partner, body, did, eid, now, outage)
      ensures Valid()
    {
      hide Process, DeliveriesUnique, Atoms.Valid, Alter, IsTerminal, FindDelivery;
      DeliveriesAreUnique(View());
      PostWebhookKeepsValid(View(), partner, body, did, eid, now, outage);
      var captured := CaptureDelivery(partner, body, did, now);
      if captured.Err? {
        return Err(captured.error);
      }
      var capture := captured.value;
      if capture.duplicate && IsTerminal(capture.status) {
        return Ok(Response(StatusCodeFor(capture.status, true), capture.deliveryId, true, None));
      }
      var begun := View();
      var processed: Result<Outcome> := Err(Infrastructure);
      if !outage {
        processed := ProcessDelivery(capture.deliveryId, now, eid);
      }
      if processed.Err? {
        Restore(begun);
        AlterDelivery(capture.deliveryId, Fail);
        return Err(processed.error);
      }
      var outcome := processed.value;
      return Ok(Response(StatusCodeFor(StatusOf(outcome), false), capture.deliveryId,
                         capture.duplicate || (outcome.Processed? && outcome.alreadyCredited), Some(outcome)));
    }

    // ----- Allocation -----

    /** One user's turn of an allocation. */
    method AllocateOne(u: string, rw: string, cost: int, key: string, ids: Ids, at: int, f: Fulfilment, rivals: Rivals)
      returns (r: Result<Given>)
      requires Valid() && (f.Unclaimable? <==> rivals == Rivals(true, true))
      modifies this
      ensures (View(), r) == Allocation.AllocateOne(old(View()), u, rw, cost, key, ids, at, f)
      ensures Valid()
    {
      hide Append, Allocation.Redeem, Reverse, Atoms.Valid, Admissible;
      AllocateOneKeepsValid(View(), u, rw, cost, key, ids, at, f);
      CreditKeeps(View(), u, cost, key, ids.credit, at);
      var begun := View();
      var credit := AppendEntry(CompInput(u, cost, key), ids.credit, at);
      if credit.Err? {
        Restore(begun);
        return Err(credit.error);
      }
      var outcome := Redeem(RedeemInput(u, rw, key), ids, at, f, rivals);
      if outcome.Ok? {
        return Ok(if outcome.value.status == FAILED then NOT_ALLOCATED else ALLOCATED);
      }
      var thrown := View();
      var reversal := ReverseEntry(credit.value.transactionId, ids.undo, at);
      if reversal.Err? {
        Restore(thrown);
        return Err(reversal.error);
      }
      return Ok(NOT_ALLOCATED);
    }

    /** Give a reward to each user in turn; a refusal never stops the others. `found` is what the user query
        returned. */
    method AllocateReward(rw: string, found: seq<string>, allocationKey: string, ids: string -> Ids, at: int,
                          fs: string -> Fulfilment, rivals: string -> Rivals) returns (r: Result<seq<Given>>)
      requires Valid() && forall u :: fs(u).Unclaimable? <==> rivals(u) == Rivals(true, true)
      modifies this
      ensures (View(), r) == Allocation.AllocateReward(old(View()), rw, found, allocationKey, ids, at, fs)
      ensures Valid()
    {
      hide Allocation.AllocateOne, Atoms.Valid;
      if rw !in rewards {
        return Err(RewardNotFound(rw));
      }
      var cost := rewards[rw].cost;
      var outcomes: seq<Given> := [];
      ghost var all := AllocateAll(View(), rw, cost, found, allocationKey, ids, at, fs).1;
      assert found[0..] == found && (all.Ok? ==> outcomes + all.value == all.value);
      for i := 0 to |found|
        invariant Valid()
        invariant var (d, rest) := AllocateAll(View(), rw, cost, found[i..], allocationKey, ids, at, fs);
          Allocation.AllocateReward(old(View()), rw, found, allocationKey, ids, at, fs) ==
            (d, if rest.Err? then Err(rest.error) else Ok(outcomes + rest.value))
      {
        var u := found[i];
        assert found[i..][0] == u && found[i..][1..] == found[i + 1..];
        var given := AllocateOne(u, rw, cost, PerUserKey(allocationKey, u), ids(u), at, fs(u), rivals(u));
        if given.Err? {
          return Err(given.error);
        }
        ghost var rest := AllocateAll(View(), rw, cost, found[i + 1..], allocationKey, ids, at, fs).1;
        assert rest.Ok? ==> outcomes + ([given.value] + rest.value) == (outcomes + [given.value]) + rest.value;
        outcomes := outcomes + [given.value];
      }
      assert outcomes + [] == outcomes;
      return Ok(outcomes);
    }
  }

  // ----- What each specification function keeps, for the methods to carry -----

  lemma AppendKeeps(db: Db, input: AppendInput, id: string, at: int)
    ensures Valid(db) && Admissible(AtomAppend(input, id, at), db) && Append(db, input, id, at).1.Ok? ==>
      Valid(Append(db, input, id, at).0)
  {
    hide Valid, Admissible, Append, Evolves;
    if Valid(db) && Admissible(AtomAppend(input, id, at), db) && Append(db, input, id, at).1.Ok? {
      AppendStepKeepsValid(db, input, id, at);
    }
  }

  lemma ReserveKeeps(db: Db, input: RedeemInput, rid: string, eid: string, at: int)
    ensures Valid(db) && Redeeming.Reserve(db, input, rid, eid, at).1.Ok? ==> Valid(Redeeming.Reserve(db, input, rid, eid, at).0)
  {
    hide Valid, Redeeming.Reserve, Evolves;
    if Valid(db) && Redeeming.Reserve(db, input, rid, eid, at).1.Ok? {
      ReserveKeepsValid(db, input, rid, eid, at);
    }
  }

  lemma CompensateKeeps(db: Db, v: Reservation, reason: string, eid: string, at: int)
    ensures Valid(db) && Undoable(db, v) && Redeeming.Compensate(db, v, reason, eid, at).1.Ok? ==>
      Valid(Redeeming.Compensate(db, v, reason, eid, at).0)
  {
    hide Valid, Redeeming.Compensate, Evolves, Undoable;
    if Valid(db) && Undoable(db, v) && Redeeming.Compensate(db, v, reason, eid, at).1.Ok? {
      CompensateKeepsValid(db, v, reason, eid, at);
    }
  }

  lemma CaptureKeeps(db: Db, partner: string, body: Body, did: string, at: int)
    ensures Valid(db) && Capture(db, partner, body, did, at).1.Ok? ==> Valid(Capture(db, partner, body, did, at).0)
  {
    hide Valid, Capture, Evolves;
    if Valid(db) && Capture(db, partner, body, did, at).1.Ok? {
      CaptureKeepsValid(db, partner, body, did, at);
    }
  }

  lemma ProcessKeeps(db: Db, did: string, now: int, eid: string)
    ensures Valid(db) && Process(db, did, now, eid).1.Ok? ==> Valid(Process(db, did, now, eid).0)
  {
    hide Valid, Process, Evolves;
    if Valid(db) && Process(db, did, now, eid).1.Ok? {
      ProcessKeepsValid(db, did, now, eid);
    }
  }

  lemma BackfillKeeps(db: Db, f: Filter, dids: seq<string>, clock: string -> int, ids: string -> string)
    ensures Valid(db) && Backfill(db, f, dids, clock, ids).1.Ok? ==> Valid(Backfill(db, f, dids, clock, ids).0)
  {
    hide Valid, Replay, Evolves;
    if Valid(db) && Backfill(db, f, dids, clock, ids).1.Ok? {
      ReplayKeepsValid(db, dids, Counts(|dids|, 0, 0, 0, 0), clock, ids);
    }
  }

  lemma CreditKeeps(db: Db, u: string, cost: int, key: string, id: string, at: int)
    ensures Valid(db) && Append(db, CompInput(u, cost, key), id, at).1.Ok? ==> Valid(Append(db, CompInput(u, cost, key), id, at).0)
  {
    hide Valid, Append, Evolves;
    if Valid(db) && Append(db, CompInput(u, cost, key), id, at).1.Ok? {
      CreditKeepsValid(db, u, cost, key, id, at);
    }
  }

  lemma ClaimsAreUnique(db: Db)
    requires Valid(db)
    ensures ClaimsUnique(db)
  {
    hide LedgerState, DeliveryInv, RulesInv, TagsSound, AllAccounted, RowsSound;
  }

  lemma DeliveriesAreUnique(db: Db)
    requires Valid(db)
    ensures DeliveriesUnique(db)
  {
    hide LedgerState, RedemptionInv, RulesInv, KeysResolved, EarnsExplained, ProcessedCredited;
  }
}
