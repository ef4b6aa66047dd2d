/** Giving a reward away more than once: under another key it is given again, under the same key it is not. */
module Campaigns {
  import opened Schema
  import opened Earning
  import opened Ledger
  import opened Redeeming
  import opened Webhook
  import opened Atoms
  import opened Columns
  import opened Allocation

  // ----- Keys -----

  /** One user under two allocation keys, and two users under one: never the same key. */
  lemma KeysDependOnBoth(k: string, u: string, l: string, v: string)
    ensures k != l ==> PerUserKey(k, u) != PerUserKey(l, u)
    ensures u != v ==> PerUserKey(k, u) != PerUserKey(k, v)
    ensures ':' !in u && ':' !in v ==> (PerUserKey(k, u) == PerUserKey(l, v) <==> k == l && u == v)
  {
    KeyParts(k, u);
    KeyParts(l, u);
    KeyParts(k, v);
    KeyParts(l, v);
    if ':' !in u && ':' !in v && PerUserKey(k, u) == PerUserKey(l, v) {
      SameSuffix(k, u, l, v);
    }
  }

  lemma KeyParts(k: string, u: string)
    ensures var key := PerUserKey(k, u); |key| == |k| + 1 + |u| && key[..|k|] == k && key[|k| + 1..] == u
  {
  }

  lemma SameSuffix(k: string, u: string, l: string, v: string)
    requires ':' !in u && ':' !in v && k + ":" + u == l + ":" + v
    ensures |u| == |v|
  {
    LastColon(k, u);
    LastColon(l, v);
    assert |(k + ":" + u)| == |k| + 1 + |u| && |(l + ":" + v)| == |l| + 1 + |v|;
  }

  lemma LastColon(k: string, u: string)
    requires ':' !in u
    ensures var s := k + ":" + u; s[|k|] == ':' && forall i :: |k| < i < |s| ==> s[i] != ':'
  {
    var s := k + ":" + u;
    forall i | |k| < i < |s| ensures s[i] != ':' {
      assert s[i] == u[i - |k| - 1];
    }
  }

  // ----- What one allocation to a list of users gives -----

  /** What became of one user: reported as given exactly if their redemption of this run is FULFILLED; any redemption it
      made is theirs, of this reward, under the run's key and theirs; and its credit is on record under that key. */
  ghost predicate GivenTo(db: Db, d: Db, rw: string, k: string, u: string, ids: Ids, given: Given) {
    && ids.rid !in db.redemptions
    && (given == ALLOCATED <==> ids.rid in d.redemptions && d.redemptions[ids.rid].status == FULFILLED)
    && (ids.rid in d.redemptions ==>
          && d.redemptions[ids.rid].userId == u && d.redemptions[ids.rid].rewardId == rw
          && d.redemptions[ids.rid].key == k + ":" + u)
    && Recorded(d.ledger, "admin", Some(k + ":" + u))
  }

  /** A unit left the shelf for this redemption and has not come back. */
  predicate Keeps(d: Db, rid: string) {
    rid in d.redemptions && d.redemptions[rid].status != FAILED
  }

  function Kept(d: Db, users: seq<string>, ids: string -> Ids): nat {
    if users == [] then 0 else (if Keeps(d, ids(users[0]).rid) then 1 else 0) + Kept(d, users[1..], ids)
  }

  ghost predicate TheirRow(e: Entry, users: seq<string>, k: string, ids: string -> Ids) {
    exists u :: u in users && OwnRow(e, u, PerUserKey(k, u), ids(u))
  }

  ghost predicate TheirClaim(r: Redemption, rid: string, users: seq<string>, k: string, ids: string -> Ids) {
    exists u :: u in users && rid == ids(u).rid && r.key == PerUserKey(k, u)
  }

  /** Whatever was added belongs to some user of the run; what was there stands. */
  ghost predicate OnlyTheirs(db: Db, d: Db, users: seq<string>, k: string, ids: string -> Ids) {
    && db.ledger <= d.ledger
    && (forall i :: |db.ledger| <= i < |d.ledger| ==> TheirRow(d.ledger[i], users, k, ids))
    && (forall rid :: rid in d.redemptions && rid !in db.redemptions ==> TheirClaim(d.redemptions[rid], rid, users, k, ids))
    && (forall rid :: rid in db.redemptions ==> rid in d.redemptions && d.redemptions[rid] == db.redemptions[rid])
  }

  /** The reward is as it was but for its stock. */
  predicate SameShelf(db: Db, d: Db, rw: string) {
    && rw in db.rewards && rw in d.rewards && d.users == db.users
    && d.rewards[rw] == db.rewards[rw].(stock := d.rewards[rw].stock)
  }

  predicate Shelved(db: Db, d: Db, rw: string, taken: int) {
    && SameShelf(db, d, rw)
    && d.rewards[rw].stock == (if db.rewards[rw].stock.Some? then Some(db.rewards[rw].stock.value - taken) else None)
  }

  lemma CreditStays(db: Db, u: string, rw: string, cost: int, key: string, ids: Ids, at: int, f: Fulfilment)
    requires Valid(db) && AllocateOne(db, u, rw, cost, key, ids, at, f).1.Ok?
    ensures Recorded(AllocateOne(db, u, rw, cost, key, ids, at, f).0.ledger, "admin", Some(key))
  {
    hide Valid, Evolves, Append, Redeem, Reverse, HoldsKey, Recorded;
    var (credited, credit) := Append(db, CompInput(u, cost, key), ids.credit, at);
    CreditKeepsValid(db, u, cost, key, ids.credit, at);
    var c :| c in credited.ledger && c.id == credit.value.transactionId && HoldsKey(c, ADMIN_SOURCE, Some(key));
    RedeemKeepsValid(credited, RedeemInput(u, rw, key), ids, at, f);
    var (d, r) := Redeem(credited, RedeemInput(u, rw, key), ids, at, f);
    RowsStay(credited, d, c);
    RowIsRecord(d.ledger, c, key);
    if r.Err? {
      UndoKeepsValid(d, c, key, ids.undo, at);
      RowsStay(d, Reverse(d, c.id, ids.undo, at).0, c);
      RowIsRecord(Reverse(d, c.id, ids.undo, at).0.ledger, c, key);
    }
  }

  lemma RowIsRecord(l: seq<Entry>, c: Entry, key: string)
    requires c in l && HoldsKey(c, ADMIN_SOURCE, Some(key))
    ensures Recorded(l, "admin", Some(key))
  {
    var i :| 0 <= i < |l| && l[i] == c;
  }

  /** The credit an allocation begins with, column by column. */
  lemma AllocationCredits(db: Db, u: string, rw: string, cost: int, key: string, ids: Ids, at: int, f: Fulfilment)
    requires Allocatable(db, u, rw, cost, key, ids)
    ensures var d := AllocateOne(db, u, rw, cost, key, ids, at, f).0;
      |d.ledger| > |db.ledger|
      && d.ledger[|db.ledger|] == Entry(ids.credit, u, cost, ADJUSTMENT, "admin", Some(key), None, None, None, at)
  {
    hide Valid, Allocatable, Append, AllocateOne;
    AllocatableIsValid(db, u, rw, cost, key, ids);
    CreditWritten(db, u, rw, cost, key, ids, at);
    CreditIsKept(db, u, rw, cost, key, ids, at, f);
    var credited := Append(db, CompInput(u, cost, key), ids.credit, at).0;
    assert credited.ledger[|db.ledger|] == Entry(ids.credit, u, cost, ADJUSTMENT, "admin", Some(key), None, None, None, at);
  }

  lemma CreditWritten(db: Db, u: string, rw: string, cost: int, key: string, ids: Ids, at: int)
    requires Allocatable(db, u, rw, cost, key, ids)
    ensures var (d, r) := Append(db, CompInput(u, cost, key), ids.credit, at);
      r.Ok? && d.ledger == db.ledger + [Entry(ids.credit, u, cost, ADJUSTMENT, "admin", Some(key), None, None, None, at)]
  {
    hide Valid, Allocatable, Append;
    CreditLands(db, u, rw, cost, key, ids, at);
    AppendWrites(db, CompInput(u, cost, key), ids.credit, at);
  }

  lemma CreditIsKept(db: Db, u: string, rw: string, cost: int, key: string, ids: Ids, at: int, f: Fulfilment)
    requires Valid(db) && Append(db, CompInput(u, cost, key), ids.credit, at).1.Ok?
    ensures Append(db, CompInput(u, cost, key), ids.credit, at).0.ledger <= AllocateOne(db, u, rw, cost, key, ids, at, f).0.ledger
  {
    hide Valid, Evolves, Append, Redeem, Reverse, HoldsKey;
    var (credited, credit) := Append(db, CompInput(u, cost, key), ids.credit, at);
    CreditKeepsValid(db, u, cost, key, ids.credit, at);
    var c :| c in credited.ledger && c.id == credit.value.transactionId && HoldsKey(c, ADMIN_SOURCE, Some(key));
    RedeemKeepsValid(credited, RedeemInput(u, rw, key), ids, at, f);
    var (d, r) := Redeem(credited, RedeemInput(u, rw, key), ids, at, f);
    LedgerGrows(credited, d);
    RowsStay(credited, d, c);
    if r.Err? && Reverse(d, c.id, ids.undo, at).1.Ok? {
      UndoKeepsValid(d, c, key, ids.undo, at);
      LedgerGrows(d, Reverse(d, c.id, ids.undo, at).0);
    }
  }

  lemma LedgerGrows(db: Db, d: Db)
    requires Evolves(db, d)
    ensures db.ledger <= d.ledger
  {
    hide LaterRedemption, SameDelivery, StockConserved;
  }

  lemma OneGiven(db: Db, u: string, rw: string, cost: int, k: string, ids: Ids, at: int, f: Fulfilment)
    requires Allocatable(db, u, rw, cost, PerUserKey(k, u), ids)
    ensures var (d, r) := AllocateOne(db, u, rw, cost, PerUserKey(k, u), ids, at, f);
      && r.Ok? && Valid(d) && GivenTo(db, d, rw, k, u, ids, r.value)
      && OnlyOwn(db, d, u, PerUserKey(k, u), ids)
      && Shelved(db, d, rw, if Keeps(d, ids.rid) then 1 else 0)
  {
    hide Valid, AllocateOne, Granted, Moved, HasId, Recorded;
    AllocatableIsValid(db, u, rw, cost, PerUserKey(k, u), ids);
    AllocationNets(db, u, rw, cost, PerUserKey(k, u), ids, at, f);
    CreditStays(db, u, rw, cost, PerUserKey(k, u), ids, at, f);
  }

  // ----- A list of users -----

  lemma OneOfTheirs(db: Db, mid: Db, d: Db, u: string, rest: seq<string>, k: string, ids: string -> Ids)
    requires OnlyOwn(db, mid, u, PerUserKey(k, u), ids(u)) && OnlyTheirs(mid, d, rest, k, ids)
    ensures OnlyTheirs(db, d, [u] + rest, k, ids)
  {
    hide OwnRow, PerUserKey;
    var users := [u] + rest;
    assert u in users && forall x :: x in rest ==> x in users;
    forall i | |db.ledger| <= i < |d.ledger| ensures TheirRow(d.ledger[i], users, k, ids) {
      if i < |mid.ledger| {
        assert d.ledger[i] == mid.ledger[i];
        assert OwnRow(d.ledger[i], u, PerUserKey(k, u), ids(u));
      } else {
        assert TheirRow(d.ledger[i], rest, k, ids);
        var x :| x in rest && OwnRow(d.ledger[i], x, PerUserKey(k, x), ids(x));
        assert x in users;
      }
    }
    forall rid | rid in d.redemptions && rid !in db.redemptions ensures TheirClaim(d.redemptions[rid], rid, users, k, ids) {
      if rid in mid.redemptions {
        assert rid == ids(u).rid;
      } else {
        assert TheirClaim(d.redemptions[rid], rid, rest, k, ids);
        var x :| x in rest && rid == ids(x).rid && d.redemptions[rid].key == PerUserKey(k, x);
        assert x in users;
      }
    }
  }

  /** What was given to one user is still given after the others' turns. */
  lemma GivenStays(db: Db, mid: Db, d: Db, rw: string, k: string, u: string, rest: seq<string>, ids: string -> Ids, given: Given)
    requires GivenTo(db, mid, rw, k, u, ids(u), given) && OnlyTheirs(mid, d, rest, k, ids)
    requires forall x :: x in rest ==> ids(x).rid != ids(u).rid
    ensures GivenTo(db, d, rw, k, u, ids(u), given)
    ensures Keeps(d, ids(u).rid) <==> Keeps(mid, ids(u).rid)
  {
    hide OwnRow;
    var i :| 0 <= i < |mid.ledger| && mid.ledger[i].source == "admin" && mid.ledger[i].eventId == Some(k + ":" + u);
    assert d.ledger[i] == mid.ledger[i];
  }

  ghost predicate AllGiven(db: Db, d: Db, rw: string, k: string, users: seq<string>, ids: string -> Ids, given: seq<Given>) {
    |given| == |users| && forall i :: 0 <= i < |users| ==> GivenTo(db, d, rw, k, users[i], ids(users[i]), given[i])
  }

  lemma EarlierGiven(db: Db, mid: Db, d: Db, rw: string, k: string, users: seq<string>, ids: string -> Ids, given: seq<Given>)
    requires AllGiven(mid, d, rw, k, users, ids, given) && db.redemptions.Keys <= mid.redemptions.Keys
    ensures AllGiven(db, d, rw, k, users, ids, given)
  {
    hide Recorded;
    forall i | 0 <= i < |users| ensures GivenTo(db, d, rw, k, users[i], ids(users[i]), given[i]) {
      assert GivenTo(mid, d, rw, k, users[i], ids(users[i]), given[i]);
    }
  }

  /** A run under keys and ids nobody has used gives every user an outcome of their own, in their order, and takes from
      the shelf exactly the units it has given or still holds. */
  lemma {:induction false} RunGives(db: Db, rw: string, cost: int, users: seq<string>, k: string, ids: string -> Ids, at: int, fs: string -> Fulfilment)
    requires Valid(db) && rw in db.rewards && AllAllocatable(db, rw, cost, users, k, ids)
    ensures var (d, r) := AllocateAll(db, rw, cost, users, k, ids, at, fs);
      && r.Ok? && Valid(d) && AllGiven(db, d, rw, k, users, ids, r.value)
      && OnlyTheirs(db, d, users, k, ids) && Shelved(db, d, rw, Kept(d, users, ids))
    decreases |users|
  {
    hide Valid, AllocateOne, AllAllocatable, GivenTo, OnlyOwn, OnlyTheirs, Keeps, PerUserKey;
    if users == [] {
      NothingTheirs(db, k, ids);
    } else {
      var u, rest := users[0], users[1..];
      assert users == [u] + rest;
      FirstTurn(db, rw, cost, users, k, ids, at, fs);
      var (mid, given) := AllocateOne(db, u, rw, cost, PerUserKey(k, u), ids(u), at, fs(u));
      RunGives(mid, rw, cost, rest, k, ids, at, fs);
      var (d, r) := AllocateAll(mid, rw, cost, rest, k, ids, at, fs);
      OneOfTheirs(db, mid, d, u, rest, k, ids);
      RestHaveOtherIds(db, rw, cost, users, k, ids);
      GivenStays(db, mid, d, rw, k, u, rest, ids, given.value);
      KeysKept(db, mid, u, PerUserKey(k, u), ids(u));
      EarlierGiven(db, mid, d, rw, k, rest, ids, r.value);
    }
  }

  lemma NothingTheirs(db: Db, k: string, ids: string -> Ids)
    ensures OnlyTheirs(db, db, [], k, ids)
  {
  }

  lemma KeysKept(db: Db, mid: Db, u: string, key: string, ids: Ids)
    requires OnlyOwn(db, mid, u, key, ids)
    ensures db.redemptions.Keys <= mid.redemptions.Keys
  {
  }

  lemma RestHaveOtherIds(db: Db, rw: string, cost: int, users: seq<string>, k: string, ids: string -> Ids)
    requires users != [] && AllAllocatable(db, rw, cost, users, k, ids)
    ensures forall x :: x in users[1..] ==> ids(x).rid != ids(users[0]).rid
  {
    hide Allocatable;
    forall x | x in users[1..] ensures ids(x).rid != ids(users[0]).rid {
      var i :| 0 <= i < |users[1..]| && users[1..][i] == x;
      assert Apart(ids(users[0]), ids(users[i + 1]));
    }
  }

  /** The first user's turn, and what it leaves for the others. */
  lemma FirstTurn(db: Db, rw: string, cost: int, users: seq<string>, k: string, ids: string -> Ids, at: int, fs: string -> Fulfilment)
    requires users != [] && rw in db.rewards && AllAllocatable(db, rw, cost, users, k, ids)
    ensures var u := users[0];
      var (d, r) := AllocateOne(db, u, rw, cost, PerUserKey(k, u), ids(u), at, fs(u));
      && r.Ok? && Valid(d) && GivenTo(db, d, rw, k, u, ids(u), r.value)
      && OnlyOwn(db, d, u, PerUserKey(k, u), ids(u))
      && Shelved(db, d, rw, if Keeps(d, ids(u).rid) then 1 else 0)
      && AllAllocatable(d, rw, cost, users[1..], k, ids)
  {
    hide Valid, AllocateOne, Allocatable, Granted, OnlyOwn, Ended, GivenTo, Keeps;
    var u := users[0];
    assert Allocatable(db, u, rw, cost, PerUserKey(k, u), ids(u));
    OneGiven(db, u, rw, cost, k, ids(u), at, fs(u));
    AllocationNets(db, u, rw, cost, PerUserKey(k, u), ids(u), at, fs(u));
    var d := AllocateOne(db, u, rw, cost, PerUserKey(k, u), ids(u), at, fs(u)).0;
    RestAllocatable(db, d, users, rw, cost, k, ids, fs(u), Allocation.Wins(db, u, rw, fs(u)));
  }

  // ----- Another key -----

  /** The second run uses no key and no id of the first. */
  ghost predicate Separate(users: seq<string>, k: string, ids: string -> Ids, more: seq<string>, l: string, others: string -> Ids) {
    forall u, v :: u in users && v in more ==> k + ":" + u != l + ":" + v && Apart(ids(u), others(v))
  }

  lemma TheirRowsHoldNoOtherKey(db: Db, d: Db, users: seq<string>, k: string, ids: string -> Ids, v: string, other: string, theirs: Ids)
    requires OnlyTheirs(db, d, users, k, ids) && FreshKey(db, v, other) && FreshIds(db, theirs)
    requires forall u :: u in users ==> PerUserKey(k, u) != other && Apart(ids(u), theirs)
    ensures FreshKey(d, v, other) && FreshIds(d, theirs)
  {
    hide OwnRow, HoldsKey, HasId, PerUserKey, Apart;
    var more := d.ledger[|db.ledger|..];
    assert d.ledger == db.ledger + more;
    forall i | |db.ledger| <= i < |d.ledger|
      ensures !HoldsKey(d.ledger[i], ADMIN_SOURCE, Some(other)) && d.ledger[i].id !in {theirs.credit, theirs.debit, theirs.refund, theirs.undo}
    {
      assert TheirRow(d.ledger[i], users, k, ids);
      var u :| u in users && OwnRow(d.ledger[i], u, PerUserKey(k, u), ids(u));
      OwnRowIsApart(d.ledger[i], u, PerUserKey(k, u), ids(u), other, theirs);
    }
    forall e | e in more ensures !HoldsKey(e, ADMIN_SOURCE, Some(other)) {
      var i :| 0 <= i < |more| && more[i] == e;
      assert d.ledger[|db.ledger| + i] == e;
    }
    OtherRowsHoldNoKey(db.ledger, more, ADMIN_SOURCE, other);
    TheirRedemptionsAreApart(db, d, users, k, ids, v, other, theirs);
    forall id | id in {theirs.credit, theirs.debit, theirs.refund, theirs.undo} ensures !HasId(d.ledger, id) {
      NoRowOfThatId(db.ledger, more, id);
    }
  }

  lemma TheirRedemptionsAreApart(db: Db, d: Db, users: seq<string>, k: string, ids: string -> Ids, v: string, other: string, theirs: Ids)
    requires OnlyTheirs(db, d, users, k, ids) && FreshKey(db, v, other) && theirs.rid !in db.redemptions
    requires forall u :: u in users ==> PerUserKey(k, u) != other && Apart(ids(u), theirs)
    ensures theirs.rid !in d.redemptions && FindByKey(d, v, other).None?
  {
    hide OwnRow, PerUserKey, HoldsKey;
    forall rid | rid in d.redemptions ensures rid != theirs.rid && !HoldsClaim(d.redemptions[rid], v, other) {
      if rid !in db.redemptions {
        assert TheirClaim(d.redemptions[rid], rid, users, k, ids);
        var u :| u in users && rid == ids(u).rid && d.redemptions[rid].key == PerUserKey(k, u);
        assert Apart(ids(u), theirs);
      }
    }
  }

  lemma OwnRowIsApart(e: Entry, u: string, key: string, ids: Ids, other: string, theirs: Ids)
    requires OwnRow(e, u, key, ids) && key != other && Apart(ids, theirs)
    ensures !HoldsKey(e, ADMIN_SOURCE, Some(other)) && e.id !in {theirs.credit, theirs.debit, theirs.refund, theirs.undo}
  {
  }

  lemma NoRowOfThatId(l: seq<Entry>, more: seq<Entry>, id: string)
    requires !HasId(l, id) && forall i :: 0 <= i < |more| ==> more[i].id != id
    ensures !HasId(l + more, id)
  {
    forall e | e in l + more ensures e.id != id {
      var i :| 0 <= i < |l + more| && (l + more)[i] == e;
      assert i < |l| ==> l[i] in l;
      assert i >= |l| ==> more[i - |l|] == e;
    }
  }

  /** So the second run finds all its keys and ids unused. */
  lemma SecondIsFresh(db: Db, d: Db, rw: string, cost: int, users: seq<string>, k: string, ids: string -> Ids,
                      more: seq<string>, l: string, others: string -> Ids)
    requires Valid(d) && OnlyTheirs(db, d, users, k, ids) && SameShelf(db, d, rw)
    requires AllAllocatable(db, rw, cost, more, l, others) && Separate(users, k, ids, more, l, others)
    ensures AllAllocatable(d, rw, cost, more, l, others)
  {
    hide Valid, OnlyTheirs, FreshIds, FreshKey, Apart;
    forall i | 0 <= i < |more| ensures Allocatable(d, more[i], rw, cost, PerUserKey(l, more[i]), others(more[i])) {
      var v := more[i];
      assert Allocatable(db, v, rw, cost, PerUserKey(l, v), others(v));
      assert v in more;
      TheirRowsHoldNoOtherKey(db, d, users, k, ids, v, PerUserKey(l, v), others(v));
    }
  }

  /** Keeping what the first run gave through the second. */
  lemma FirstStillGiven(db: Db, mid: Db, d: Db, rw: string, k: string, users: seq<string>, ids: string -> Ids, given: seq<Given>,
                        more: seq<string>, l: string, others: string -> Ids)
    requires AllGiven(db, mid, rw, k, users, ids, given) && OnlyTheirs(mid, d, more, l, others)
    requires Separate(users, k, ids, more, l, others)
    ensures AllGiven(db, d, rw, k, users, ids, given)
  {
    hide OwnRow, PerUserKey;
    forall i | 0 <= i < |users| ensures GivenTo(db, d, rw, k, users[i], ids(users[i]), given[i]) {
      var u := users[i];
      assert GivenTo(db, mid, rw, k, u, ids(u), given[i]);
      assert u in users;
      var n :| 0 <= n < |mid.ledger| && mid.ledger[n].source == "admin" && mid.ledger[n].eventId == Some(k + ":" + u);
      assert d.ledger[n] == mid.ledger[n];
    }
  }

  /** Two allocations of one reward under different keys, to any two lists of users, the same users included. The second
      is a new gift: every user it reports as given gets a redemption of its own, which was not there before, next to
      the one the first run may have given them; every outcome of both runs is as reported; and the units of both runs
      have left the shelf. */
  lemma AnotherKeyGivesAgain(db: Db, rw: string, users: seq<string>, k: string, ids: string -> Ids, at: int, fs: string -> Fulfilment,
                             more: seq<string>, l: string, others: string -> Ids, later: int, gs: string -> Fulfilment)
    requires Valid(db) && rw in db.rewards
    requires AllAllocatable(db, rw, db.rewards[rw].cost, users, k, ids)
    requires AllAllocatable(db, rw, db.rewards[rw].cost, more, l, others)
    requires Separate(users, k, ids, more, l, others)
    ensures var (mid, first) := AllocateReward(db, rw, users, k, ids, at, fs);
      var (d, second) := AllocateReward(mid, rw, more, l, others, later, gs);
      && first.Ok? && second.Ok?
      && AllGiven(mid, d, rw, l, more, others, second.value)
      && AllGiven(db, d, rw, k, users, ids, first.value)
      && Shelved(db, mid, rw, Kept(mid, users, ids))
      && Shelved(mid, d, rw, Kept(d, more, others))
  {
    hide Valid, AllAllocatable, AllocateAll, AllGiven, OnlyTheirs, Separate, Kept;
    var cost := db.rewards[rw].cost;
    RunGives(db, rw, cost, users, k, ids, at, fs);
    var (mid, first) := AllocateReward(db, rw, users, k, ids, at, fs);
    SecondIsFresh(db, mid, rw, cost, users, k, ids, more, l, others);
    RunGives(mid, rw, cost, more, l, others, later, gs);
    var d := AllocateReward(mid, rw, more, l, others, later, gs).0;
    FirstStillGiven(db, mid, d, rw, k, users, ids, first.value, more, l, others);
  }

  // ----- The same key -----

  /** The user has been given the reward under this key. */
  ghost predicate HasBeenGiven(db: Db, k: string, u: string) {
    && u in db.users.Values && Recorded(db.ledger, "admin", Some(k + ":" + u))
    && exists rid :: rid in db.redemptions && db.redemptions[rid].userId == u && db.redemptions[rid].key == k + ":" + u
                     && db.redemptions[rid].status == FULFILLED
  }

  ghost predicate Untouched(db: Db, d: Db) {
    && d.ledger == db.ledger && d.redemptions == db.redemptions && d.rewards == db.rewards && d.users == db.users
    && forall u :: Balance(d, u) == Balance(db, u)
  }

  lemma GivenOnce(db: Db, u: string, rw: string, cost: int, k: string, ids: Ids, at: int, f: Fulfilment)
    requires Valid(db) && cost > 0 && HasBeenGiven(db, k, u)
    ensures var (d, r) := AllocateOne(db, u, rw, cost, PerUserKey(k, u), ids, at, f);
      Valid(d) && Untouched(db, d) && r == Ok(ALLOCATED)
  {
    var key := PerUserKey(k, u);
    RecordedIsFound(db.ledger, ADMIN_SOURCE, Some(key));
    var rid :| rid in db.redemptions && db.redemptions[rid].userId == u && db.redemptions[rid].key == key && db.redemptions[rid].status == FULFILLED;
    OnlyClaim(db, u, key, rid);
    hide Valid, AllocateOne, Evolves, FindByKey, FindKey;
    RerunMovesNothing(db, u, rw, cost, key, ids, at, f);
    AllocateOneKeepsValid(db, u, rw, cost, key, ids, at, f);
    RerunKeepsUsers(db, u, rw, cost, key, ids, at, f);
  }

  lemma OnlyClaim(db: Db, u: string, key: string, rid: string)
    requires Valid(db) && rid in db.redemptions && HoldsClaim(db.redemptions[rid], u, key)
    ensures FindByKey(db, u, key) == Some(rid)
  {
    hide LedgerState, DeliveryInv, RulesInv, TagsSound, AllAccounted, RowsSound;
  }

  lemma RerunKeepsUsers(db: Db, u: string, rw: string, cost: int, key: string, ids: Ids, at: int, f: Fulfilment)
    requires Valid(db) && UserExists(db, u) && cost > 0
    requires FindKey(db.ledger, ADMIN_SOURCE, Some(key)).Some? && FindByKey(db, u, key).Some?
    ensures AllocateOne(db, u, rw, cost, key, ids, at, f).0.users == db.users
  {
    hide Valid, FindByKey, Append, Materialise;
    CreditAlreadyThere(db, u, cost, key, ids, at);
    MaterialisedTables(db, u);
    OneClaim(db, Materialise(db, u), u, key);
  }

  /** Running an allocation again under a key whose users have been given its reward adds no row, no redemption and takes
      no unit, and reports each of them as given, whatever became of the reward and the third party since. */
  lemma {:induction false} SameKeyGivesNothing(db: Db, rw: string, cost: int, users: seq<string>, k: string, ids: string -> Ids, at: int,
                                               fs: string -> Fulfilment)
    requires Valid(db) && cost > 0 && forall u :: u in users ==> HasBeenGiven(db, k, u)
    ensures var (d, r) := AllocateAll(db, rw, cost, users, k, ids, at, fs);
      && Untouched(db, d) && r.Ok? && |r.value| == |users| && forall i :: 0 <= i < |users| ==> r.value[i] == ALLOCATED
    decreases |users|
  {
    hide Valid, AllocateOne, HasBeenGiven, PerUserKey;
    if users != [] {
      var u, rest := users[0], users[1..];
      assert u in users && forall x :: x in rest ==> x in users;
      GivenOnce(db, u, rw, cost, k, ids(u), at, fs(u));
      var mid := AllocateOne(db, u, rw, cost, PerUserKey(k, u), ids(u), at, fs(u)).0;
      forall x | x in rest ensures HasBeenGiven(mid, k, x) {
        StillHasBeenGiven(db, mid, k, x);
      }
      SameKeyGivesNothing(mid, rw, cost, rest, k, ids, at, fs);
    }
  }

  lemma StillHasBeenGiven(db: Db, d: Db, k: string, u: string)
    requires HasBeenGiven(db, k, u) && Untouched(db, d)
    ensures HasBeenGiven(d, k, u)
  {
    hide Recorded;
  }

  lemma ReportedHasBeenGiven(db: Db, d: Db, rw: string, k: string, users: seq<string>, ids: string -> Ids, given: seq<Given>, u: string)
    requires AllGiven(db, d, rw, k, users, ids, given) && SameShelf(db, d, rw)
    requires exists i :: 0 <= i < |users| && users[i] == u && given[i] == ALLOCATED
    requires u in db.users.Values
    ensures HasBeenGiven(d, k, u)
  {
    hide Recorded;
    var i :| 0 <= i < |users| && users[i] == u && given[i] == ALLOCATED;
    assert GivenTo(db, d, rw, k, users[i], ids(users[i]), given[i]);
  }

  /** So right after a run, the same allocation again, to any of the users it reported as given, gives nothing. */
  lemma SameKeyAgainGivesNothing(db: Db, rw: string, users: seq<string>, k: string, ids: string -> Ids, at: int, fs: string -> Fulfilment,
                                 again: seq<string>, others: string -> Ids, later: int, gs: string -> Fulfilment)
    requires Valid(db) && rw in db.rewards && AllAllocatable(db, rw, db.rewards[rw].cost, users, k, ids)
    requires var first := AllocateReward(db, rw, users, k, ids, at, fs).1;
      first.Ok? && |first.value| == |users|
      && forall u :: u in again ==> exists i :: 0 <= i < |users| && users[i] == u && first.value[i] == ALLOCATED
    ensures var (mid, first) := AllocateReward(db, rw, users, k, ids, at, fs);
      var (d, second) := AllocateReward(mid, rw, again, k, others, later, gs);
      && Untouched(mid, d) && second.Ok? && |second.value| == |again|
      && forall i :: 0 <= i < |again| ==> second.value[i] == ALLOCATED
  {
    hide Valid, AllocateAll, AllGiven, OnlyTheirs, Kept, HasBeenGiven, Untouched, Allocatable;
    RunGives(db, rw, db.rewards[rw].cost, users, k, ids, at, fs);
    var (mid, first) := AllocateReward(db, rw, users, k, ids, at, fs);
    CostIsPositive(db, rw);
    forall u | u in again ensures HasBeenGiven(mid, k, u) {
      var i :| 0 <= i < |users| && users[i] == u && first.value[i] == ALLOCATED;
      AllocatableUser(db, u, rw, db.rewards[rw].cost, PerUserKey(k, u), ids(u));
      ReportedHasBeenGiven(db, mid, rw, k, users, ids, first.value, u);
    }
    SameKeyGivesNothing(mid, rw, db.rewards[rw].cost, again, k, others, later, gs);
  }

  lemma AllocatableUser(db: Db, u: string, rw: string, cost: int, key: string, ids: Ids)
    requires Allocatable(db, u, rw, cost, key, ids)
    ensures u in db.users.Values
  {
  }

  // ----- Refusal -----

  /** A user the service does not know stops the run with nothing done for them. */
  lemma UnknownUserStops(db: Db, u: string, rw: string, cost: int, key: string, ids: Ids, at: int, f: Fulfilment)
    requires u !in db.users.Values && u !in db.balances
    ensures AllocateOne(db, u, rw, cost, key, ids, at, f) == (db, Err(UnknownUser(u)))
  {
    hide Redeem, Reverse, FindKey, HasId;
  }

  lemma OneKnowsItsReward(db: Db, u: string, rw: string, cost: int, key: string, ids: Ids, at: int, f: Fulfilment)
    ensures !(AllocateOne(db, u, rw, cost, key, ids, at, f).1.Err? && AllocateOne(db, u, rw, cost, key, ids, at, f).1.error.RewardNotFound?)
  {
    hide Redeem, FindKey, HasId, HasReversal, ReferencesExist, RowChecks, UserExists, FindRow;
  }

  lemma {:induction false} RunKnowsItsReward(db: Db, rw: string, cost: int, users: seq<string>, k: string, ids: string -> Ids, at: int,
                                             fs: string -> Fulfilment)
    ensures var r := AllocateAll(db, rw, cost, users, k, ids, at, fs).1; !(r.Err? && r.error.RewardNotFound?)
    decreases |users|
  {
    hide AllocateOne;
    if users != [] {
      var u := users[0];
      OneKnowsItsReward(db, u, rw, cost, PerUserKey(k, u), ids(u), at, fs(u));
      RunKnowsItsReward(AllocateOne(db, u, rw, cost, PerUserKey(k, u), ids(u), at, fs(u)).0, rw, cost, users[1..], k, ids, at, fs);
    }
  }

  /** An allocation is refused as a whole exactly when there is no such reward, and then changes nothing. */
  lemma OnlyUnknownRewardsAreRefused(db: Db, rw: string, users: seq<string>, k: string, ids: string -> Ids, at: int, fs: string -> Fulfilment)
    ensures var (d, r) := AllocateReward(db, rw, users, k, ids, at, fs);
      && (r == Err(RewardNotFound(rw)) <==> rw !in db.rewards)
      && (rw !in db.rewards ==> d == db)
  {
    hide AllocateAll;
    if rw in db.rewards {
      RunKnowsItsReward(db, rw, db.rewards[rw].cost, users, k, ids, at, fs);
    }
  }
}
