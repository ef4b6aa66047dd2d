/** The append-only points ledger and its cached balances. */
module Ledger {
  import opened Schema

  const REVERSAL_SOURCE := "reversal"
  const REDEMPTION_SOURCE := "redemption"
  const PARTNER_PREFIX := "partner:"

  // ----- Sums over the ledger -----

  /** Total delta of the rows a filter selects. */
  function Sum(l: seq<Entry>, p: Entry -> bool): int {
    if l == [] then 0
    else Sum(l[..|l| - 1], p) + (if p(l[|l| - 1]) then l[|l| - 1].delta else 0)
  }

  function ByUser(u: string): Entry -> bool {
    (e: Entry) => e.userId == u
  }

  /** The corrections that took points away from a user. */
  function Clawed(u: string): Entry -> bool {
    (e: Entry) => e.userId == u && e.kind == REVERSAL && e.delta < 0
  }

  function ByRedemption(rid: string): Entry -> bool {
    (e: Entry) => e.redemptionId == Some(rid)
  }

  lemma SumPush(l: seq<Entry>, e: Entry, p: Entry -> bool)
    ensures Sum(l + [e], p) == Sum(l, p) + (if p(e) then e.delta else 0)
  {
    assert (l + [e])[..|l|] == l;
  }

  lemma {:induction false} SumConcat(l: seq<Entry>, m: seq<Entry>, p: Entry -> bool)
    ensures Sum(l + m, p) == Sum(l, p) + Sum(m, p)
  {
    if m == [] {
      assert l + m == l;
    } else {
      var init, e := m[..|m| - 1], m[|m| - 1];
      SumConcat(l, init, p);
      assert l + m == (l + init) + [e] && m == init + [e];
      SumPush(l + init, e, p);
      SumPush(init, e, p);
    }
  }

  // ----- Looking rows up -----

  /** The id of the row holding a dedupe key. A missing event id never conflicts. */
  function FindKey(l: seq<Entry>, source: string, eventId: Option<string>): (r: Option<string>)
    ensures r.Some? ==> exists i :: 0 <= i < |l| && HoldsKey(l[i], source, eventId) && l[i].id == r.value
    ensures r.None? ==> forall i :: 0 <= i < |l| ==> !HoldsKey(l[i], source, eventId)
  {
    if l == [] then None
    else
      var earlier := FindKey(l[..|l| - 1], source, eventId);
      if earlier.Some? then earlier
      else if HoldsKey(l[|l| - 1], source, eventId) then Some(l[|l| - 1].id)
      else None
  }

  predicate HoldsKey(e: Entry, source: string, eventId: Option<string>) {
    eventId.Some? && e.source == source && e.eventId == eventId
  }

  /** Later rows never change which row answers for a key. */
  lemma {:induction false} FindKeyStable(l: seq<Entry>, more: seq<Entry>, source: string, eventId: Option<string>)
    ensures FindKey(l, source, eventId).Some? ==>
      FindKey(l + more, source, eventId) == FindKey(l, source, eventId)
  {
    if more == [] {
      assert l + more == l;
    } else {
      FindKeyStable(l, more[..|more| - 1], source, eventId);
      assert (l + more)[..|l + more| - 1] == l + more[..|more| - 1];
    }
  }

  predicate HasId(l: seq<Entry>, id: string) {
    exists e | e in l :: e.id == id
  }

  predicate HasReversal(l: seq<Entry>, id: string) {
    exists e | e in l :: e.reversesId == Some(id)
  }

  function FindRow(l: seq<Entry>, id: string): (r: Option<Entry>)
    ensures r.Some? ==> r.value in l && r.value.id == id
    ensures r.None? ==> !HasId(l, id)
  {
    if l == [] then None
    else if l[0].id == id then Some(l[0])
    else FindRow(l[1..], id)
  }

  predicate UserExists(db: Db, u: string) {
    u in db.users.Values
  }

  function Balance(db: Db, u: string): int {
    if u in db.balances then db.balances[u] else 0
  }

  // ----- Appending -----

  datatype AppendInput = AppendInput(
    userId: string,
    delta: int,
    kind: EntryType,
    source: string,
    eventId: Option<string>,
    redemptionId: Option<string>,
    ruleId: Option<string>,
    reversesId: Option<string>,
    enforceNonNegative: bool)

  datatype Appended = Appended(transactionId: string, balanceAfter: int, duplicate: bool)

  function NewRow(input: AppendInput, id: string, at: int): Entry {
    Entry(id, input.userId, input.delta, input.kind, input.source, input.eventId,
          input.redemptionId, input.ruleId, input.reversesId, at)
  }

  /** The CHECK constraints on point_transactions. */
  predicate RowChecks(delta: int, kind: EntryType) {
    && delta != 0
    && (kind == EARN ==> delta > 0)
    && (kind == REDEEM ==> delta < 0)
  }

  predicate ReferencesExist(db: Db, input: AppendInput) {
    && (input.redemptionId.Some? ==> input.redemptionId.value in db.redemptions)
    && (input.ruleId.Some? ==> exists r | r in db.rules :: r.id == input.ruleId.value)
    && (input.reversesId.Some? ==> HasId(db.ledger, input.reversesId.value))
  }

  predicate Overdraws(input: AppendInput, balance: int) {
    input.enforceNonNegative && input.delta < 0 && balance + input.delta < 0
  }

  /** Insert a zero balance row unless one is there already. */
  function Materialise(db: Db, u: string): Db {
    if u in db.balances then db else db.(balances := db.balances[u := 0])
  }

  /** One row and the balance that goes with it. */
  function Post(db: Db, e: Entry): Db {
    db.(ledger := db.ledger + [e], balances := db.balances[e.userId := Balance(db, e.userId) + e.delta])
  }

  /** The state `appendEntry` leaves its transaction in, and what it returns or throws. On an error the
      state is the transaction's own uncommitted one: it is the caller's rollback that discards it. */
  function Append(db: Db, input: AppendInput, id: string, at: int): (Db, Result<Appended>) {
    var u := input.userId;
    if u !in db.balances && !UserExists(db, u) then (db, Err(UnknownUser(u)))
    else
      var d := Materialise(db, u);
      var balance := d.balances[u];
      if !RowChecks(input.delta, input.kind) then (d, Err(CheckViolation))
      else
        var original := FindKey(d.ledger, input.source, input.eventId);
        if original.Some? then (d, Ok(Appended(original.value, balance, true)))
        else if HasId(d.ledger, id) || (input.reversesId.Some? && HasReversal(d.ledger, input.reversesId.value)) then
          (d, Err(UniqueViolation))
        else if !ReferencesExist(d, input) then (d, Err(ForeignKeyViolation))
        else if Overdraws(input, balance) then
          (d.(ledger := d.ledger + [NewRow(input, id, at)]), Err(InsufficientPoints(u, balance, -input.delta)))
        else (Post(d, NewRow(input, id, at)), Ok(Appended(id, balance + input.delta, false)))
  }

  // ----- Reversing -----

  /** What a reversal of a row asks the ledger to append. */
  function ReversalOf(o: Entry): AppendInput {
    AppendInput(o.userId, -o.delta, REVERSAL, REVERSAL_SOURCE, Some(o.id), o.redemptionId, None, Some(o.id), false)
  }

  datatype Reversed = Reversed(entry: Appended, reversed: bool)

  function Reverse(db: Db, originalId: string, id: string, at: int): (Db, Result<Reversed>) {
    var original := FindRow(db.ledger, originalId);
    if original.None? then (db, Err(EntryNotFound(originalId)))
    else
      var (d, r) := Append(db, ReversalOf(original.value), id, at);
      (d, if r.Ok? then Ok(Reversed(r.value, !r.value.duplicate)) else Err(r.error))
  }

  // ----- What every ledger keeps -----

  ghost predicate DistinctIds(l: seq<Entry>) {
    forall i, j :: 0 <= i < j < |l| ==> l[i].id != l[j].id
  }

  ghost predicate DistinctKeys(l: seq<Entry>) {
    forall i, j :: 0 <= i < j < |l| ==> !HoldsKey(l[i], l[j].source, l[j].eventId)
  }

  /** `e` undoes `o`. */
  predicate Mirrors(o: Entry, e: Entry) {
    && e.reversesId == Some(o.id)
    && e.userId == o.userId
    && e.delta == -o.delta
    && e.redemptionId == o.redemptionId
  }

  /** Which source writes which kind of row. */
  predicate WellLabelled(e: Entry) {
    && RowChecks(e.delta, e.kind)
    && (e.kind == REVERSAL <==> e.source == REVERSAL_SOURCE)
    && (e.kind == REDEEM ==> e.source == REDEMPTION_SOURCE)
    && (e.kind == EARN <==> PARTNER_PREFIX <= e.source)
    && (e.kind == REVERSAL <==> e.reversesId.Some?)
    && (e.kind == REVERSAL ==> e.eventId == e.reversesId)
  }

  /** A reversal undoes an earlier row of the same user. */
  ghost predicate UndoesEarlier(l: seq<Entry>, i: nat)
    requires i < |l|
  {
    l[i].kind == REVERSAL ==> exists j :: 0 <= j < i && Mirrors(l[j], l[i])
  }

  ghost predicate LedgerInv(l: seq<Entry>) {
    && DistinctIds(l)
    && DistinctKeys(l)
    && (forall i :: 0 <= i < |l| ==> WellLabelled(l[i]))
    && (forall i :: 0 <= i < |l| ==> UndoesEarlier(l, i))
  }

  /** The cache equals the ledger, for every user there could be. */
  ghost predicate BalancesMatch(db: Db) {
    forall u :: Balance(db, u) == Sum(db.ledger, ByUser(u))
  }

  ghost predicate BalancesOwned(db: Db) {
    && (forall u :: u in db.balances ==> UserExists(db, u))
    && (forall i :: 0 <= i < |db.ledger| ==> db.ledger[i].userId in db.balances)
  }

  /** A balance is never lower than what corrections alone took away. */
  ghost predicate FloorHolds(db: Db) {
    forall u :: Balance(db, u) >= Sum(db.ledger, Clawed(u))
  }

  /** What the callers of `appendEntry` guarantee about their input. */
  ghost predicate InputSound(l: seq<Entry>, input: AppendInput) {
    && (input.kind == REVERSAL <==> input.source == REVERSAL_SOURCE)
    && (input.kind == REDEEM ==> input.source == REDEMPTION_SOURCE)
    && (input.kind == EARN <==> PARTNER_PREFIX <= input.source)
    && (input.kind == REVERSAL <==> input.reversesId.Some?)
    && (input.kind == REVERSAL ==> exists j :: 0 <= j < |l| && input == ReversalOf(l[j]))
    && (input.kind != REVERSAL ==> input.enforceNonNegative)
  }

  // ----- Preservation -----

  lemma PushKeepsLedger(l: seq<Entry>, e: Entry)
    requires LedgerInv(l)
    requires !HasId(l, e.id) && FindKey(l, e.source, e.eventId).None?
    requires WellLabelled(e)
    requires e.kind == REVERSAL ==> exists j :: 0 <= j < |l| && Mirrors(l[j], e)
    ensures LedgerInv(l + [e])
  {
    hide WellLabelled, DistinctIds, DistinctKeys, UndoesEarlier, HasId, FindKey, Mirrors;
    PushKeepsDistinct(l, e);
    PushKeepsUndo(l, e);
  }

  lemma PushKeepsDistinct(l: seq<Entry>, e: Entry)
    requires DistinctIds(l) && DistinctKeys(l)
    requires !HasId(l, e.id) && FindKey(l, e.source, e.eventId).None?
    ensures DistinctIds(l + [e]) && DistinctKeys(l + [e])
  {
    assert forall i :: 0 <= i < |l| ==> l[i] in l;
  }

  lemma PushKeepsUndo(l: seq<Entry>, e: Entry)
    requires forall i :: 0 <= i < |l| ==> UndoesEarlier(l, i)
    requires e.kind == REVERSAL ==> exists j :: 0 <= j < |l| && Mirrors(l[j], e)
    ensures forall i :: 0 <= i < |l + [e]| ==> UndoesEarlier(l + [e], i)
  {
    hide Mirrors;
    var m := l + [e];
    forall i | 0 <= i < |m| ensures UndoesEarlier(m, i) {
      if i < |l| {
        assert UndoesEarlier(l, i);
      }
      if m[i].kind == REVERSAL {
        var j :| 0 <= j < i && Mirrors(l[j], m[i]);
        assert Mirrors(m[j], m[i]);
      }
    }
  }

  lemma PostKeepsBalances(db: Db, e: Entry)
    requires BalancesMatch(db) && BalancesOwned(db)
    requires e.userId in db.balances
    ensures BalancesMatch(Post(db, e)) && BalancesOwned(Post(db, e))
  {
    var d := Post(db, e);
    forall u ensures Balance(d, u) == Sum(d.ledger, ByUser(u)) {
      SumPush(db.ledger, e, ByUser(u));
      assert Balance(db, u) == Sum(db.ledger, ByUser(u));
    }
  }

  lemma PostKeepsFloor(db: Db, e: Entry)
    requires FloorHolds(db) && BalancesMatch(db)
    requires e.delta < 0 && e.kind != REVERSAL ==> Balance(db, e.userId) + e.delta >= 0
    ensures FloorHolds(Post(db, e))
  {
    var d := Post(db, e);
    forall u ensures Balance(d, u) >= Sum(d.ledger, Clawed(u)) {
      SumPush(db.ledger, e, Clawed(u));
      assert Balance(db, u) >= Sum(db.ledger, Clawed(u));
      ClawedNeverPositive(db.ledger, u);
    }
  }

  lemma {:induction false} ClawedNeverPositive(l: seq<Entry>, u: string)
    ensures Sum(l, Clawed(u)) <= 0
  {
    if l != [] {
      ClawedNeverPositive(l[..|l| - 1], u);
    }
  }

  lemma MaterialiseKeeps(db: Db, u: string)
    requires UserExists(db, u) || u in db.balances
    ensures var d := Materialise(db, u);
      && u in d.balances
      && (forall v :: Balance(d, v) == Balance(db, v))
      && (BalancesMatch(db) ==> BalancesMatch(d))
      && (BalancesOwned(db) ==> BalancesOwned(d))
      && (FloorHolds(db) ==> FloorHolds(d))
  {
    var d := Materialise(db, u);
    assert forall v :: Balance(d, v) == Balance(db, v);
  }

  ghost predicate LedgerState(db: Db) {
    LedgerInv(db.ledger) && BalancesMatch(db) && BalancesOwned(db) && FloorHolds(db)
  }

  /** Every successful append keeps the ledger and its cache in step. A spend lands only if the balance
      covers it; a correction always lands. */
  lemma AppendKeepsLedger(db: Db, input: AppendInput, id: string, at: int)
    requires LedgerState(db) && InputSound(db.ledger, input)
    requires Append(db, input, id, at).1.Ok?
    ensures LedgerState(Append(db, input, id, at).0)
  {
    hide FloorHolds, BalancesMatch, BalancesOwned, LedgerInv;
    MaterialiseKeeps(db, input.userId);
    var d := Materialise(db, input.userId);
    var e := NewRow(input, id, at);
    if !Append(db, input, id, at).1.value.duplicate {
      assert e.kind == REVERSAL ==> exists j :: 0 <= j < |db.ledger| && Mirrors(db.ledger[j], e) by {
        if e.kind == REVERSAL {
          var j :| 0 <= j < |db.ledger| && input == ReversalOf(db.ledger[j]);
          assert Mirrors(db.ledger[j], e);
        }
      }
      PushKeepsLedger(d.ledger, e);
      PostKeepsBalances(d, e);
      PostKeepsFloor(d, e);
    }
  }

  /** An append, successful or not, writes only to the ledger and the balances. */
  lemma AppendTouchesTwoTables(db: Db, input: AppendInput, id: string, at: int)
    ensures var d := Append(db, input, id, at).0;
      d == db.(ledger := d.ledger, balances := d.balances)
  {
    hide FindKey, HasId, HasReversal, ReferencesExist, RowChecks, Overdraws, UserExists;
  }

  /** An append never fails for want of an idempotency key. */
  lemma AppendErrors(db: Db, input: AppendInput, id: string, at: int)
    ensures Append(db, input, id, at).1 != Err(KeyUnclaimable)
  {
    hide FindKey, HasId, HasReversal, ReferencesExist, RowChecks, Overdraws, UserExists;
  }

  /** All an append that succeeds may touch. */
  lemma AppendShape(db: Db, input: AppendInput, id: string, at: int)
    requires Append(db, input, id, at).1.Ok?
    ensures var (d, r) := Append(db, input, id, at);
      var m := Materialise(db, input.userId);
      && m == db.(balances := m.balances)
      && (forall u :: u in db.balances ==> u in m.balances)
      && input.userId in m.balances
      && (UserExists(db, input.userId) || input.userId in db.balances)
      && (r.value.duplicate ==> d == m && FindKey(db.ledger, input.source, input.eventId).Some?)
      && (!r.value.duplicate ==> d == Post(m, NewRow(input, id, at)) && !HasId(db.ledger, id)
                                 && FindKey(db.ledger, input.source, input.eventId).None?)
  {
  }

  /** What a successful append reports is so: the balance it names is the balance now, and the row it names is
      in the ledger and holds the key. */
  lemma AppendReportsTheTruth(db: Db, input: AppendInput, id: string, at: int)
    requires Append(db, input, id, at).1.Ok?
    ensures var (d, r) := Append(db, input, id, at);
      && r.value.balanceAfter == Balance(d, input.userId)
      && HasId(d.ledger, r.value.transactionId)
      && (input.eventId.Some? ==> FindKey(d.ledger, input.source, input.eventId) == Some(r.value.transactionId))
      && (r.value.duplicate <==> d.ledger == db.ledger)
  {
    hide RowChecks, ReferencesExist, HasReversal, UserExists;
    var (d, r) := Append(db, input, id, at);
    if r.value.duplicate {
      assert FindKey(db.ledger, input.source, input.eventId) == Some(r.value.transactionId);
      var i :| 0 <= i < |db.ledger| && HoldsKey(db.ledger[i], input.source, input.eventId) && db.ledger[i].id == r.value.transactionId;
      assert db.ledger[i] in db.ledger;
    } else {
      var e := NewRow(input, id, at);
      assert d.ledger == db.ledger + [e] && d.ledger[..|d.ledger| - 1] == db.ledger;
      assert d.ledger[|db.ledger|] == e;
    }
  }

  /** The unique index on reverses_id never decides anything the dedupe key has not decided already. */
  lemma ReversalGuardNeverFires(l: seq<Entry>, input: AppendInput)
    requires LedgerInv(l) && InputSound(l, input) && input.reversesId.Some?
    ensures HasReversal(l, input.reversesId.value) <==> FindKey(l, input.source, input.eventId).Some?
  {
    var j :| 0 <= j < |l| && input == ReversalOf(l[j]);
    if HasReversal(l, input.reversesId.value) {
      var e :| e in l && e.reversesId == input.reversesId;
      var i :| 0 <= i < |l| && l[i] == e;
      assert WellLabelled(l[i]);
      assert HoldsKey(l[i], input.source, input.eventId);
    }
    if FindKey(l, input.source, input.eventId).Some? {
      var i :| 0 <= i < |l| && HoldsKey(l[i], input.source, input.eventId);
      assert WellLabelled(l[i]);
      assert l[i] in l && l[i].reversesId == input.reversesId;
    }
  }

  /** Exactly when a well-formed append of a new key is refused: a spend the balance does not cover.
      A credit, and any correction, lands whatever the debt. */
  lemma RefusedOnlyWhenOverdrawn(db: Db, input: AppendInput, id: string, at: int)
    requires LedgerState(db) && InputSound(db.ledger, input)
    requires UserExists(db, input.userId) && !HasId(db.ledger, id)
    requires RowChecks(input.delta, input.kind) && ReferencesExist(db, input)
    ensures Append(db, input, id, at).1.Err? <==>
      FindKey(db.ledger, input.source, input.eventId).None?
      && input.kind != REVERSAL && input.delta < 0 && Balance(db, input.userId) + input.delta < 0
  {
    if input.reversesId.Some? {
      ReversalGuardNeverFires(db.ledger, input);
    }
    if input.kind == REVERSAL {
      assert !input.enforceNonNegative;
    }
  }

  /** Repeating an append under the same dedupe key moves nothing and answers with the first row. */
  lemma AppendTwiceIsOnce(db: Db, input: AppendInput, id: string, at: int, id': string, at': int)
    requires LedgerState(db) && input.eventId.Some?
    requires Append(db, input, id, at).1.Ok?
    ensures var (d, first) := Append(db, input, id, at);
      Append(d, input, id', at') ==
        (d, Ok(Appended(first.value.transactionId, Balance(d, input.userId), true)))
  {
    var (d, first) := Append(db, input, id, at);
    if !first.value.duplicate {
      var m := Materialise(db, input.userId);
      assert d.ledger == m.ledger + [NewRow(input, id, at)];
      assert d.ledger[..|d.ledger| - 1] == m.ledger;
      assert FindKey(d.ledger, input.source, input.eventId) == Some(id);
    }
  }

  lemma ReversalIsSound(l: seq<Entry>, o: Entry)
    requires o in l
    ensures InputSound(l, ReversalOf(o))
  {
    assert PARTNER_PREFIX[0] == 'p' && REVERSAL_SOURCE[0] == 'r';
    var j :| 0 <= j < |l| && l[j] == o;
  }

  lemma NotReversedYet(l: seq<Entry>, o: Entry)
    requires LedgerInv(l) && o in l && !HasReversal(l, o.id)
    ensures FindKey(l, REVERSAL_SOURCE, Some(o.id)).None? && o.delta != 0
  {
    hide InputSound, HasReversal, UndoesEarlier, DistinctIds, DistinctKeys;
    ReversalIsSound(l, o);
    ReversalGuardNeverFires(l, ReversalOf(o));
    var j :| 0 <= j < |l| && l[j] == o;
    assert WellLabelled(l[j]);
  }

  /** Reversing a row nothing has reversed yet always lands, and mirrors it. */
  lemma ReverseShape(db: Db, o: Entry, id: string, at: int)
    requires LedgerInv(db.ledger) && o in db.ledger && o.userId in db.balances
    requires !HasId(db.ledger, id) && !HasReversal(db.ledger, o.id)
    requires o.redemptionId.Some? ==> o.redemptionId.value in db.redemptions
    ensures Reverse(db, o.id, id, at) ==
      (Post(db, NewRow(ReversalOf(o), id, at)),
       Ok(Reversed(Appended(id, Balance(db, o.userId) - o.delta, false), true)))
  {
    NotReversedYet(db.ledger, o);
    RowById(db.ledger, o);
    hide LedgerInv, FindKey, FindRow, HasReversal;
    assert HasId(db.ledger, o.id);
  }

  lemma RowById(l: seq<Entry>, o: Entry)
    requires LedgerInv(l) && o in l
    ensures FindRow(l, o.id) == Some(o)
  {
    hide WellLabelled, UndoesEarlier, DistinctKeys;
    FindRowById(l, o);
  }

  lemma FindRowById(l: seq<Entry>, o: Entry)
    requires DistinctIds(l) && o in l
    ensures FindRow(l, o.id) == Some(o)
  {
    var r := FindRow(l, o.id).value;
    var i :| 0 <= i < |l| && l[i] == o;
    var j :| 0 <= j < |l| && l[j] == r;
  }

  // ----- Reconciliation -----

  datatype Discrepancy = Discrepancy(userId: string, cached: int, summed: int, difference: int)

  /** One row per user whose cached balance disagrees with the sum of their ledger rows. */
  function Reconcile(db: Db): set<Discrepancy> {
    set u | u in db.users.Values && Balance(db, u) != Sum(db.ledger, ByUser(u)) ::
      Discrepancy(u, Balance(db, u), Sum(db.ledger, ByUser(u)), Balance(db, u) - Sum(db.ledger, ByUser(u)))
  }

  predicate Drifts(db: Db, u: string) {
    Balance(db, u) != Sum(db.ledger, ByUser(u))
  }

  /** Reconciliation names exactly the users whose balance has drifted, one row each; so an empty result means
      that every balance there could be is right. */
  lemma ReconcileFindsExactlyTheDrifted(db: Db)
    requires BalancesOwned(db)
    ensures forall u :: Drifts(db, u) <==> exists x :: x in Reconcile(db) && x.userId == u
    ensures forall x, y :: x in Reconcile(db) && y in Reconcile(db) && x.userId == y.userId ==> x == y
    ensures Reconcile(db) == {} <==> BalancesMatch(db)
  {
    forall u | Drifts(db, u) ensures exists x :: x in Reconcile(db) && x.userId == u {
      if u !in db.users.Values {
        SumOfStranger(db.ledger, u);
      }
      assert Discrepancy(u, Balance(db, u), Sum(db.ledger, ByUser(u)), Balance(db, u) - Sum(db.ledger, ByUser(u)))
        in Reconcile(db);
    }
    if Reconcile(db) == {} {
      forall u ensures Balance(db, u) == Sum(db.ledger, ByUser(u)) {
        assert !Drifts(db, u);
      }
    }
  }

  lemma {:induction false} SumOfStranger(l: seq<Entry>, u: string)
    requires forall i :: 0 <= i < |l| ==> l[i].userId != u
    ensures Sum(l, ByUser(u)) == 0
  {
    if l != [] {
      SumOfStranger(l[..|l| - 1], u);
    }
  }

  /** The refusal is raised after the row was inserted, so the transaction it leaves behind must not be
      committed: it holds a debit the balance does not reflect, and reconciliation reports that user alone. */
  lemma RefusalMustRollBack(db: Db, input: AppendInput, id: string, at: int)
    requires LedgerState(db)
    requires Append(db, input, id, at).1 == Err(InsufficientPoints(input.userId, Balance(db, input.userId), -input.delta))
    ensures var dirty := Append(db, input, id, at).0;
      && !BalancesMatch(dirty)
      && Reconcile(dirty) == {Discrepancy(input.userId, Balance(db, input.userId),
                                          Balance(db, input.userId) + input.delta, -input.delta)}
  {
    hide LedgerInv, FloorHolds, Append, Balance;
    RefusalShape(db, input, id, at);
    RowWithoutBalanceDrifts(db, Append(db, input, id, at).0, NewRow(input, id, at));
  }

  /** What a refused append leaves uncommitted: its row, without the balance that goes with it. */
  lemma RefusalShape(db: Db, input: AppendInput, id: string, at: int)
    requires Append(db, input, id, at).1 == Err(InsufficientPoints(input.userId, Balance(db, input.userId), -input.delta))
    requires BalancesOwned(db)
    ensures var dirty := Append(db, input, id, at).0;
      && dirty.users == db.users && dirty.ledger == db.ledger + [NewRow(input, id, at)]
      && (forall v :: Balance(dirty, v) == Balance(db, v))
      && UserExists(db, input.userId) && input.delta != 0
  {
    hide FindKey, HasId, HasReversal, ReferencesExist, UserExists;
    assert UserExists(db, input.userId);
    assert forall v :: Balance(Materialise(db, input.userId), v) == Balance(db, v);
  }

  lemma RowWithoutBalanceDrifts(db: Db, dirty: Db, e: Entry)
    requires BalancesMatch(db) && UserExists(db, e.userId) && e.delta != 0
    requires dirty.users == db.users && dirty.ledger == db.ledger + [e]
    requires forall v :: Balance(dirty, v) == Balance(db, v)
    ensures !BalancesMatch(dirty)
    ensures Reconcile(dirty) == {Discrepancy(e.userId, Balance(db, e.userId), Balance(db, e.userId) + e.delta, -e.delta)}
  {
    var u := e.userId;
    forall v ensures Sum(dirty.ledger, ByUser(v)) == Balance(db, v) + (if v == u then e.delta else 0) {
      SumPush(db.ledger, e, ByUser(v));
      assert Balance(db, v) == Sum(db.ledger, ByUser(v));
    }
    assert Balance(dirty, u) != Sum(dirty.ledger, ByUser(u));
    assert Discrepancy(u, Balance(dirty, u), Sum(dirty.ledger, ByUser(u)), Balance(dirty, u) - Sum(dirty.ledger, ByUser(u)))
      in Reconcile(dirty);
  }
}
