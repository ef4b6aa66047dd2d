/** Many redemptions racing for one user's points and one reward's stock. */
module Contention {
  import opened Schema
  import opened Ledger
  import opened Redeeming
  import opened Atoms

  /** One request for a reward, under its own idempotency key. */
  datatype Attempt = Attempt(key: string, rid: string, eid: string, at: int)

  ghost function Reserving(db: Db, u: string, rw: string, a: Attempt): (Db, Result<Reserved>) {
    Reserve(db, RedeemInput(u, rw, a.key), a.rid, a.eid, a.at)
  }

  ghost predicate Wins(db: Db, u: string, rw: string, a: Attempt) {
    Reserving(db, u, rw, a).1.Ok? && Reserving(db, u, rw, a).1.value.Claimed?
  }

  /** The attempt as a transaction: committed if it succeeds, rolled back if it throws. */
  ghost function Try(db: Db, u: string, rw: string, a: Attempt): Db {
    if Reserving(db, u, rw, a).1.Ok? then Reserving(db, u, rw, a).0 else db
  }

  ghost function TryAll(db: Db, u: string, rw: string, attempts: seq<Attempt>): Db
    decreases |attempts|
  {
    if attempts == [] then db else TryAll(Try(db, u, rw, attempts[0]), u, rw, attempts[1..])
  }

  ghost function Won(db: Db, u: string, rw: string, attempts: seq<Attempt>): nat
    decreases |attempts|
  {
    if attempts == [] then 0
    else (if Wins(db, u, rw, attempts[0]) then 1 else 0) + Won(Try(db, u, rw, attempts[0]), u, rw, attempts[1..])
  }

  // ----- One attempt -----

  /** No earlier request used this key, and the generated ids are new. */
  ghost predicate Unused(db: Db, u: string, a: Attempt) {
    FindByKey(db, u, a.key).None? && a.rid !in db.redemptions && !HasId(db.ledger, a.eid)
  }

  ghost predicate AllUnused(db: Db, u: string, attempts: seq<Attempt>) {
    && (forall i :: 0 <= i < |attempts| ==> Unused(db, u, attempts[i]))
    && (forall i, j :: 0 <= i < j < |attempts| ==>
          attempts[i].key != attempts[j].key && attempts[i].rid != attempts[j].rid && attempts[i].eid != attempts[j].eid)
  }

  predicate OnSale(db: Db, rw: string, cost: int) {
    rw in db.rewards && db.rewards[rw].active && db.rewards[rw].cost == cost && cost > 0
  }

  predicate InStock(db: Db, rw: string)
    requires rw in db.rewards
  {
    db.rewards[rw].stock.Some? ==> db.rewards[rw].stock.value > 0
  }

  /** A fresh request succeeds exactly when the balance covers the price and a unit is left. */
  lemma AttemptDecided(db: Db, u: string, rw: string, a: Attempt, cost: int)
    requires UserExists(db, u) && OnSale(db, rw, cost) && Unused(db, u, a)
    ensures Wins(db, u, rw, a) <==> Balance(db, u) >= cost && InStock(db, rw)
    ensures !Wins(db, u, rw, a) ==> Reserving(db, u, rw, a).1.Err?
  {
    hide FindByKey, FindKey, HasId, UserExists;
    var row := ClaimRow(RedeemInput(u, rw, a.key), db.rewards[rw]);
    var locked := Materialise(db.(redemptions := db.redemptions[a.rid := row]), u);
    NoKeyNoConflict(db.ledger, REDEMPTION_SOURCE);
  }

  /** And if it is refused, exactly why: stock is asked about before points. */
  lemma RefusalReasons(db: Db, u: string, rw: string, a: Attempt)
    requires UserExists(db, u) && Unused(db, u, a)
    requires rw in db.rewards ==> db.rewards[rw].cost > 0
    ensures var r := Reserving(db, u, rw, a).1;
      && (r == Err(RewardNotFound(rw)) <==> rw !in db.rewards)
      && (r == Err(RewardInactive) <==> rw in db.rewards && !db.rewards[rw].active)
      && (r == Err(OutOfStock) <==> rw in db.rewards && db.rewards[rw].active && !InStock(db, rw))
      && (rw in db.rewards ==>
            (r == Err(InsufficientPoints(u, Balance(db, u), db.rewards[rw].cost)) <==>
              db.rewards[rw].active && InStock(db, rw) && Balance(db, u) < db.rewards[rw].cost))
  {
    hide ReserveWith, FindByKey, HasId, UserExists;
    if rw in db.rewards && db.rewards[rw].active {
      var seen := db.rewards[rw];
      ClaimReasons(db, a.rid, ClaimRow(RedeemInput(u, rw, a.key), seen), seen.stock.Some?, a.eid, a.at);
    }
  }

  lemma ClaimReasons(db: Db, rid: string, row: Redemption, limited: bool, eid: string, at: int)
    requires FindByKey(db, row.userId, row.key).None? && rid !in db.redemptions && UserExists(db, row.userId)
    requires !HasId(db.ledger, eid) && row.cost > 0
    ensures var r := ReserveWith(db, rid, row, limited, eid, at).1;
      var none := limited && TakeUnit(db, row.rewardId).None?;
      && (r == Err(OutOfStock) <==> none)
      && (r == Err(InsufficientPoints(row.userId, Balance(db, row.userId), row.cost)) <==> !none && Balance(db, row.userId) < row.cost)
      && (r.Ok? || r.error.OutOfStock? || r.error.InsufficientPoints?)
  {
    hide FindByKey, FindKey, HasId, UserExists;
    NoKeyNoConflict(db.ledger, REDEMPTION_SOURCE);
  }

  lemma NoKeyNoConflict(l: seq<Entry>, source: string)
    ensures FindKey(l, source, None).None?
  {
  }

  /** The state a successful attempt commits: one debit, one unit, one claim. */
  lemma WinnerShape(db: Db, u: string, rw: string, a: Attempt, cost: int)
    requires OnSale(db, rw, cost) && Unused(db, u, a) && Wins(db, u, rw, a)
    ensures var d := Try(db, u, rw, a);
      && OnSale(d, rw, cost)
      && Balance(d, u) == Balance(db, u) - cost
      && (db.rewards[rw].stock.None? <==> d.rewards[rw].stock.None?)
      && (db.rewards[rw].stock.Some? ==> d.rewards[rw].stock.value == db.rewards[rw].stock.value - 1)
      && d.users == db.users && |d.ledger| == |db.ledger| + 1
  {
    var seen := db.rewards[rw];
    var row := ClaimRow(RedeemInput(u, rw, a.key), seen);
    ReserveShape(db, a.rid, row, seen.stock.Some?, a.eid, a.at);
    hide ReserveWith, FindByKey, HasId;
  }

  lemma OthersStayUnused(db: Db, u: string, rw: string, a: Attempt, rest: seq<Attempt>)
    requires AllUnused(db, u, [a] + rest) && rw in db.rewards && db.rewards[rw].active
    ensures AllUnused(Try(db, u, rw, a), u, rest)
  {
    var all := [a] + rest;
    assert Unused(db, u, all[0]);
    forall i | 0 <= i < |rest| ensures Unused(Try(db, u, rw, a), u, rest[i]) {
      assert Unused(db, u, all[i + 1]);
      assert all[0].key != all[i + 1].key && all[0].rid != all[i + 1].rid && all[0].eid != all[i + 1].eid;
      StaysUnused(db, u, rw, a, rest[i]);
    }
    forall i, j | 0 <= i < j < |rest|
      ensures rest[i].key != rest[j].key && rest[i].rid != rest[j].rid && rest[i].eid != rest[j].eid
    {
      assert all[i + 1].key != all[j + 1].key;
    }
    hide Try, Unused;
  }

  lemma StaysUnused(db: Db, u: string, rw: string, a: Attempt, b: Attempt)
    requires rw in db.rewards && db.rewards[rw].active && Unused(db, u, a) && Unused(db, u, b)
    requires a.key != b.key && a.rid != b.rid && a.eid != b.eid
    ensures Unused(Try(db, u, rw, a), u, b)
  {
    hide ReserveWith;
    if Reserving(db, u, rw, a).1.Ok? {
      var seen := db.rewards[rw];
      var row := ClaimRow(RedeemInput(u, rw, a.key), seen);
      ClaimedNotReplayed(db, a.rid, row, seen.stock.Some?, a.eid, a.at);
      ReserveShape(db, a.rid, row, seen.stock.Some?, a.eid, a.at);
      var d := Try(db, u, rw, a);
      assert forall e :: e in d.ledger ==> e in db.ledger || e.id == a.eid;
    }
  }

  lemma ClaimedNotReplayed(db: Db, rid: string, row: Redemption, limited: bool, eid: string, at: int)
    requires FindByKey(db, row.userId, row.key).None? && ReserveWith(db, rid, row, limited, eid, at).1.Ok?
    ensures ReserveWith(db, rid, row, limited, eid, at).1.value.Claimed?
  {
  }

  // ----- All of them -----

  function Min(a: int, b: int): int {
    if a < b then a else b
  }

  /** How many of `n` attempts the balance and the stock allow. */
  function Affordable(n: nat, balance: int, cost: int, stock: Option<int>): int
    requires cost > 0
  {
    var paid := Min(n, balance / cost);
    if stock.Some? then Min(paid, stock.value) else paid
  }

  lemma OneFewer(balance: int, cost: int)
    requires cost > 0
    ensures (balance - cost) / cost == balance / cost - 1
    ensures 0 <= balance < cost ==> balance / cost == 0
    ensures balance >= cost ==> balance / cost >= 1
  {
    var q, r := balance / cost, balance % cost;
    var p, t := (balance - cost) / cost, (balance - cost) % cost;
    Distributes(q, 1, cost);
    QuotientUnique(p, t, q - 1, r, cost);
    if 0 <= balance < cost {
      QuotientUnique(q, r, 0, balance, cost);
    }
    if balance >= cost && q <= 0 {
      Distributes(1, q, cost);
      AtLeast(1 - q, cost);
    }
  }

  lemma Distributes(a: int, b: int, c: int)
    ensures (a - b) * c == a * c - b * c
  {
  }

  lemma AtLeast(k: int, c: int)
    requires k >= 1 && c > 0
    ensures k * c >= c
  {
    Distributes(k, 1, c);
  }

  lemma QuotientUnique(p: int, t: int, q: int, r: int, c: int)
    requires p * c + t == q * c + r && 0 <= r < c && 0 <= t < c
    ensures p == q
  {
    if p > q {
      AtLeast(p - q, c);
      Distributes(p, q, c);
      assert false;
    }
    if p < q {
      AtLeast(q - p, c);
      Distributes(q, p, c);
      assert false;
    }
  }

  /** However the attempts are ordered, exactly as many commit as the balance and the stock allow; what they
      took is what they paid for, and the refused ones left nothing behind. */
  lemma {:induction false} ExactlyTheAffordableWin(db: Db, u: string, rw: string, attempts: seq<Attempt>, cost: int)
    requires UserExists(db, u) && OnSale(db, rw, cost) && AllUnused(db, u, attempts)
    requires Balance(db, u) >= 0 && (db.rewards[rw].stock.Some? ==> db.rewards[rw].stock.value >= 0)
    ensures var d := TryAll(db, u, rw, attempts);
      var won := Won(db, u, rw, attempts);
      && won == Affordable(|attempts|, Balance(db, u), cost, db.rewards[rw].stock)
      && Balance(d, u) == Balance(db, u) - won * cost
      && |d.ledger| == |db.ledger| + won
      && rw in d.rewards
      && d.rewards[rw].stock ==
           (if db.rewards[rw].stock.Some? then Some(db.rewards[rw].stock.value - won) else None)
    decreases |attempts|
  {
    hide Reserving, AllUnused, UserExists, Balance, Wins, Try;
    OneFewer(Balance(db, u), cost);
    if attempts != [] {
      var a, rest := attempts[0], attempts[1..];
      assert attempts == [a] + rest;
      FirstUnused(db, u, a, rest);
      AttemptDecided(db, u, rw, a, cost);
      OthersStayUnused(db, u, rw, a, rest);
      var d := Try(db, u, rw, a);
      if Wins(db, u, rw, a) {
        WinnerShape(db, u, rw, a, cost);
        SameUsers(db, d, u);
      } else {
        LoserShape(db, u, rw, a);
      }
      ExactlyTheAffordableWin(d, u, rw, rest, cost);
      var won := Won(d, u, rw, rest);
      assert (won + 1) * cost == won * cost + cost;
    }
  }

  lemma FirstUnused(db: Db, u: string, a: Attempt, rest: seq<Attempt>)
    requires AllUnused(db, u, [a] + rest)
    ensures Unused(db, u, a)
  {
    assert Unused(db, u, ([a] + rest)[0]);
  }

  lemma SameUsers(db: Db, d: Db, u: string)
    requires d.users == db.users && UserExists(db, u)
    ensures UserExists(d, u)
  {
  }

  lemma LoserShape(db: Db, u: string, rw: string, a: Attempt)
    requires Reserving(db, u, rw, a).1.Err?
    ensures Try(db, u, rw, a) == db
  {
  }
}
