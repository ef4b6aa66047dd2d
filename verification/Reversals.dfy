/** Reversals form disjoint chains, and a balance is what the chains of odd length leave standing. */
module Reversals {
  import opened Schema
  import opened Ledger

  predicate Reverses(l: seq<Entry>, k: nat, i: nat)
    requires k < |l| && i < |l|
  {
    l[k].reversesId == Some(l[i].id)
  }

  /** A reversal comes after what it undoes, belongs to the same user and negates it; a row has at most
      one reversal and a reversal undoes exactly one row, so chains never meet and never loop. */
  lemma ChainsAreDisjoint(l: seq<Entry>, k: nat, i: nat)
    requires LedgerInv(l) && k < |l| && i < |l| && Reverses(l, k, i)
    ensures i < k && l[k].kind == REVERSAL
    ensures l[k].userId == l[i].userId && l[k].delta == -l[i].delta
    ensures forall m :: 0 <= m < |l| && Reverses(l, m, i) ==> m == k
    ensures forall j :: 0 <= j < |l| && Reverses(l, k, j) ==> j == i
  {
    hide RowChecks;
    assert WellLabelled(l[k]) && UndoesEarlier(l, k);
    var j :| 0 <= j < k && Mirrors(l[j], l[k]);
    forall m | 0 <= m < |l| && Reverses(l, m, i) ensures m == k {
      assert WellLabelled(l[m]);
      assert HoldsKey(l[m], l[k].source, l[k].eventId);
      assert HoldsKey(l[k], l[m].source, l[m].eventId);
    }
  }

  ghost function ReverserOf(l: seq<Entry>, i: nat): (r: Option<nat>)
    requires i < |l|
    ensures r.Some? ==> r.value < |l| && Reverses(l, r.value, i)
    ensures r.None? ==> forall k :: 0 <= k < |l| ==> !Reverses(l, k, i)
  {
    if k: nat :| k < |l| && Reverses(l, k, i) then Some(k) else None
  }

  /** Rows from this one to the end of its chain. */
  ghost function ChainLength(l: seq<Entry>, i: nat): (n: nat)
    requires LedgerInv(l) && i < |l|
    ensures n >= 1
    decreases |l| - i
  {
    var k := ReverserOf(l, i);
    if k.None? then 1
    else
      ChainsAreDisjoint(l, k.value, i);
      1 + ChainLength(l, k.value)
  }

  ghost predicate Standing(l: seq<Entry>, i: nat)
    requires LedgerInv(l) && i < |l|
  {
    ChainLength(l, i) % 2 == 1
  }

  /** Sum of delta over the user's non-reversal rows from i on whose chain has odd length. */
  ghost function StandingSum(l: seq<Entry>, u: string, i: nat): int
    requires LedgerInv(l) && i <= |l|
    decreases |l| - i
  {
    if i == |l| then 0
    else
      var own := if l[i].userId == u && l[i].kind != REVERSAL && Standing(l, i) then l[i].delta else 0;
      own + StandingSum(l, u, i + 1)
  }

  /** Rows that undo nothing at position lo or later. */
  ghost predicate Top(l: seq<Entry>, j: nat, lo: nat)
    requires j < |l|
  {
    forall i :: lo <= i < |l| ==> !Reverses(l, j, i)
  }

  ghost function TopSum(l: seq<Entry>, u: string, lo: nat, from: nat): int
    requires LedgerInv(l) && from <= |l|
    decreases |l| - from
  {
    if from == |l| then 0
    else Part(l, u, lo, from) + TopSum(l, u, lo, from + 1)
  }

  ghost function Part(l: seq<Entry>, u: string, lo: nat, j: nat): int
    requires LedgerInv(l) && j < |l|
  {
    if l[j].userId == u && Top(l, j, lo) && Standing(l, j) then l[j].delta else 0
  }

  ghost function SuffixSum(l: seq<Entry>, u: string, from: nat): int
    requires from <= |l|
    decreases |l| - from
  {
    if from == |l| then 0
    else (if l[from].userId == u then l[from].delta else 0) + SuffixSum(l, u, from + 1)
  }

  /** What the reversal of row lo contributes while it counts as a top row. */
  ghost function ReverserPart(l: seq<Entry>, u: string, lo: nat, from: nat): int
    requires LedgerInv(l) && lo < |l|
  {
    var k := ReverserOf(l, lo);
    if k.Some? && k.value >= from && l[lo].userId == u && Standing(l, k.value) then -l[lo].delta else 0
  }

  /** Lowering lo by one stops exactly one row from being a top row: the reversal of row lo. */
  lemma {:induction false} TopSumDropsReverser(l: seq<Entry>, u: string, lo: nat, from: nat)
    requires LedgerInv(l) && lo < |l| && from <= |l|
    ensures TopSum(l, u, lo, from) == TopSum(l, u, lo + 1, from) - ReverserPart(l, u, lo, from)
    decreases |l| - from
  {
    if from < |l| {
      TopSumDropsReverser(l, u, lo, from + 1);
      PartChangesOnce(l, u, lo, from);
    }
  }

  lemma PartChangesOnce(l: seq<Entry>, u: string, lo: nat, j: nat)
    requires LedgerInv(l) && lo < |l| && j < |l|
    ensures Part(l, u, lo, j) - Part(l, u, lo + 1, j)
         == ReverserPart(l, u, lo, j + 1) - ReverserPart(l, u, lo, j)
  {
    hide LedgerInv;
    var k := ReverserOf(l, lo);
    if Reverses(l, j, lo) {
      ChainsAreDisjoint(l, j, lo);
      assert k == Some(j);
      assert Top(l, j, lo + 1);
      assert !Top(l, j, lo);
    } else {
      assert Top(l, j, lo) <==> Top(l, j, lo + 1);
      assert k != Some(j);
    }
  }

  lemma {:induction false} TopsAccountForAll(l: seq<Entry>, u: string, lo: nat)
    requires LedgerInv(l) && lo <= |l|
    ensures TopSum(l, u, lo, lo) == SuffixSum(l, u, lo)
    decreases |l| - lo
  {
    if lo < |l| {
      TopsAccountForAll(l, u, lo + 1);
      TopSumDropsReverser(l, u, lo, lo + 1);
      var k := ReverserOf(l, lo);
      if Top(l, lo, lo) {
      } else {
        var i :| lo <= i < |l| && Reverses(l, lo, i);
        ChainsAreDisjoint(l, lo, i);
        assert false;
      }
      if k.Some? {
        ChainsAreDisjoint(l, k.value, lo);
      }
    }
  }

  lemma {:induction false} TopsAreOriginals(l: seq<Entry>, u: string, i: nat)
    requires LedgerInv(l) && i <= |l|
    ensures TopSum(l, u, 0, i) == StandingSum(l, u, i)
    decreases |l| - i
  {
    if i < |l| {
      TopsAreOriginals(l, u, i + 1);
      assert WellLabelled(l[i]) && UndoesEarlier(l, i);
      if l[i].kind == REVERSAL {
        var j :| 0 <= j < i && Mirrors(l[j], l[i]);
        assert Reverses(l, i, j);
      }
    }
  }

  lemma {:induction false} SuffixIsSum(l: seq<Entry>, u: string, i: nat)
    requires i <= |l|
    ensures Sum(l[..i], ByUser(u)) + SuffixSum(l, u, i) == Sum(l, ByUser(u))
    decreases |l| - i
  {
    if i == |l| {
      assert l[..i] == l;
    } else {
      SuffixIsSum(l, u, i + 1);
      assert l[..i + 1] == l[..i] + [l[i]];
      SumPush(l[..i], l[i], ByUser(u));
    }
  }

  /** A balance is the sum of delta over the user's non-reversal rows whose reversal chain has odd length. */
  lemma BalanceIsWhatStands(db: Db, u: string)
    requires LedgerState(db)
    ensures Balance(db, u) == StandingSum(db.ledger, u, 0)
  {
    var l := db.ledger;
    TopsAccountForAll(l, u, 0);
    TopsAreOriginals(l, u, 0);
    SuffixIsSum(l, u, 0);
    assert Balance(db, u) == Sum(l, ByUser(u));
  }
}
