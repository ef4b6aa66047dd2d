/** Earning rules: half-open windows, their overlaps, and the price of an activity at an instant. */
module Earning {
  import opened Schema

  predicate NonEmpty(r: Rule) {
    r.to.Some? ==> r.from < r.to.value
  }

  /** The instant is inside the half-open window [from, to). */
  predicate Covers(r: Rule, t: int) {
    r.from <= t && (r.to.Some? ==> t < r.to.value)
  }

  predicate Before(t: int, end: Option<int>) {
    end.Some? ==> t < end.value
  }

  /** The comparison the service makes; a missing end is plus infinity. */
  predicate WindowsOverlap(a: Rule, b: Rule) {
    Before(a.from, b.to) && Before(b.from, a.to)
  }

  predicate ShareInstant(a: Rule, b: Rule, t: int) {
    Covers(a, t) && Covers(b, t)
  }

  /** Two windows share an instant exactly when the comparison says so and neither window is empty. */
  lemma OverlapIsIntersection(a: Rule, b: Rule)
    ensures (exists t :: ShareInstant(a, b, t)) <==> WindowsOverlap(a, b) && NonEmpty(a) && NonEmpty(b)
  {
    if WindowsOverlap(a, b) && NonEmpty(a) && NonEmpty(b) {
      assert ShareInstant(a, b, if a.from < b.from then b.from else a.from);
    }
  }

  /** Without the schema's ordered-window check the comparison reports an overlap nobody can witness. */
  lemma EmptyWindowOverlapsNothing()
    ensures var empty := Rule("a", "PURCHASE", 1, 5, Some(5), true);
            var open := Rule("b", "PURCHASE", 1, 0, Some(10), true);
            WindowsOverlap(empty, open) && forall t :: !ShareInstant(empty, open, t)
  {
  }

  predicate Clash(a: Rule, b: Rule) {
    a.active && b.active && a.activityType == b.activityType && WindowsOverlap(a, b)
  }

  function ActiveRules(rules: seq<Rule>): (r: seq<Rule>)
    ensures forall x :: x in r <==> x in rules && x.active
    ensures |r| <= |rules|
  {
    if rules == [] then []
    else if rules[0].active then [rules[0]] + ActiveRules(rules[1..])
    else ActiveRules(rules[1..])
  }

  /** Positions i < j of two active rules that clash. */
  predicate Colliding(active: seq<Rule>, i: nat, j: nat) {
    i < j < |active| && Clash(active[i], active[j])
  }

  /** Positions the nested loop has passed when it stands at (i, j). */
  predicate Passed(p: (nat, nat), i: nat, j: nat) {
    p.0 < i || (p.0 == i && p.1 < j)
  }

  ghost predicate Ascending(at: seq<(nat, nat)>) {
    forall k, m :: 0 <= k < m < |at| ==> Passed(at[k], at[m].0, at[m].1)
  }

  /** `at` lists exactly the colliding positions passed so far, each once and in order. */
  ghost predicate Reported(active: seq<Rule>, at: seq<(nat, nat)>, i: nat, j: nat) {
    && Ascending(at)
    && (forall p :: p in at ==> Colliding(active, p.0, p.1) && Passed(p, i, j))
    && (forall p: (nat, nat) :: Colliding(active, p.0, p.1) && Passed(p, i, j) ==> p in at)
  }

  ghost predicate PairsAt(active: seq<Rule>, at: seq<(nat, nat)>, overlaps: seq<(Rule, Rule)>) {
    |overlaps| == |at| &&
    forall k :: 0 <= k < |at| ==>
      at[k].0 < |active| && at[k].1 < |active| && overlaps[k] == (active[at[k].0], active[at[k].1])
  }

  lemma ReportOne(active: seq<Rule>, at: seq<(nat, nat)>, i: nat, j: nat)
    requires Reported(active, at, i, j) && i < j < |active|
    ensures Reported(active, if Clash(active[i], active[j]) then at + [(i, j)] else at, i, j + 1)
  {
    var next := if Clash(active[i], active[j]) then at + [(i, j)] else at;
    forall p: (nat, nat) | Colliding(active, p.0, p.1) && Passed(p, i, j + 1)
      ensures p in next
    {
      if Passed(p, i, j) {
        assert p in at;
      } else {
        assert p == (i, j) && next[|next| - 1] == p;
      }
    }
  }

  lemma ReportRow(active: seq<Rule>, at: seq<(nat, nat)>, i: nat)
    requires Reported(active, at, i, |active|) && i < |active|
    ensures Reported(active, at, i + 1, i + 2)
  {
    forall p: (nat, nat) | Colliding(active, p.0, p.1) && Passed(p, i + 1, i + 2)
      ensures p in at
    {
      assert Passed(p, i, |active|);
    }
  }

  lemma PushPair(active: seq<Rule>, at: seq<(nat, nat)>, overlaps: seq<(Rule, Rule)>, i: nat, j: nat)
    requires PairsAt(active, at, overlaps) && i < |active| && j < |active|
    ensures PairsAt(active, at + [(i, j)], overlaps + [(active[i], active[j])])
  {
  }

  lemma ReportStart(active: seq<Rule>)
    ensures Reported(active, [], 0, 1) && PairsAt(active, [], [])
  {
  }

  /** Once every row has been passed the report is complete, and empty exactly when nothing clashes. */
  lemma ReportDone(active: seq<Rule>, at: seq<(nat, nat)>, i: nat, overlaps: seq<(Rule, Rule)>)
    requires Reported(active, at, i, i + 1) && |active| <= i
    requires PairsAt(active, at, overlaps)
    ensures forall p: (nat, nat) :: p in at <==> Colliding(active, p.0, p.1)
    ensures Ascending(at)
    ensures overlaps == [] <==> NoClash(active)
  {
    forall p: (nat, nat) | Colliding(active, p.0, p.1)
      ensures p in at
    {
      assert Passed(p, i, i + 1);
    }
    if at == [] {
      forall i, j | 0 <= i < j < |active|
        ensures !Clash(active[i], active[j])
      {
        assert Colliding(active, i, j) ==> (i, j) in at;
      }
    } else {
      assert at[0] in at;
    }
  }

  /** The nested loop. `at` records the two positions behind each pair: every clashing pair of active
      rules is reported, none twice, and nothing else. */
  method FindOverlappingRules(rules: seq<Rule>) returns (overlaps: seq<(Rule, Rule)>, ghost at: seq<(nat, nat)>)
    ensures PairsAt(ActiveRules(rules), at, overlaps)
    ensures forall p: (nat, nat) :: p in at <==> Colliding(ActiveRules(rules), p.0, p.1)
    ensures Ascending(at)
    ensures overlaps == [] <==> NoClash(rules)
  {
    hide Reported, PairsAt, NoClash, WindowsOverlap, Colliding, Ascending;
    var active := ActiveRules(rules);
    overlaps, at := [], [];
    ReportStart(active);
    var i := 0;
    while i < |active|
      invariant 0 <= i <= |active|
      invariant PairsAt(active, at, overlaps)
      invariant Reported(active, at, i, i + 1)
    {
      var j := i + 1;
      while j < |active|
        invariant i < j <= |active|
        invariant PairsAt(active, at, overlaps)
        invariant Reported(active, at, i, j)
      {
        var first, second := active[i], active[j];
        ReportOne(active, at, i, j);
        PushPair(active, at, overlaps, i, j);
        if first.activityType == second.activityType && WindowsOverlap(first, second) {
          overlaps, at := overlaps + [(first, second)], at + [(i, j)];
        }
        j := j + 1;
      }
      ReportRow(active, at, i);
      i := i + 1;
    }
    ReportDone(active, at, i, overlaps);
    ActiveRulesClashAlike(rules);
  }

  lemma {:induction false} ActiveRulesClashAlike(rules: seq<Rule>)
    ensures NoClash(ActiveRules(rules)) <==> NoClash(rules)
  {
    hide NoClash, WindowsOverlap;
    if rules == [] {
    } else {
      var rest := rules[1..];
      ActiveRulesClashAlike(rest);
      assert rules == [rules[0]] + rest;
      ClashHeadFirst(rules[0], rest);
      ClashHeadFirst(rules[0], ActiveRules(rest));
    }
  }

  lemma ClashHeadFirst(head: Rule, rest: seq<Rule>)
    ensures NoClash([head] + rest) <==> NoClash(rest) && forall x :: x in rest ==> !Clash(head, x)
  {
    var all := [head] + rest;
    if NoClash(all) {
      forall i, j | 0 <= i < j < |rest| ensures !Clash(rest[i], rest[j]) {
        assert !Clash(all[i + 1], all[j + 1]);
      }
      forall x | x in rest ensures !Clash(head, x) {
        var j :| 0 <= j < |rest| && rest[j] == x;
        assert !Clash(all[0], all[j + 1]);
      }
    }
  }

  ghost predicate NoClash(rules: seq<Rule>) {
    forall i, j :: 0 <= i < j < |rules| ==> !Clash(rules[i], rules[j])
  }

  /** No two active rules of one activity type apply at one instant. */
  ghost predicate Unambiguous(rules: seq<Rule>) {
    forall i, j, t :: 0 <= i < j < |rules| && Applies(rules[i], rules[j].activityType, t)
      ==> !Applies(rules[j], rules[j].activityType, t)
  }

  predicate Applies(r: Rule, activityType: string, t: int) {
    r.active && r.activityType == activityType && Covers(r, t)
  }

  /** What the schema stores: ordered windows, distinct ids, and the exclusion constraint. */
  ghost predicate RulesInv(rules: seq<Rule>) {
    (forall i :: 0 <= i < |rules| ==> NonEmpty(rules[i])) &&
    (forall i, j :: 0 <= i < j < |rules| ==> rules[i].id != rules[j].id) &&
    NoClash(rules)
  }

  /** On ordered windows, having no clash is the same as pricing being a function of type and instant. */
  lemma NoClashIsUnambiguous(rules: seq<Rule>)
    requires forall i :: 0 <= i < |rules| ==> NonEmpty(rules[i])
    ensures NoClash(rules) <==> Unambiguous(rules)
  {
    if NoClash(rules) {
      forall i, j, t | 0 <= i < j < |rules| && Applies(rules[i], rules[j].activityType, t)
        ensures !Applies(rules[j], rules[j].activityType, t)
      {
        assert !Clash(rules[i], rules[j]);
      }
    }
    if Unambiguous(rules) {
      forall i, j | 0 <= i < j < |rules|
        ensures !Clash(rules[i], rules[j])
      {
        if Clash(rules[i], rules[j]) {
          OverlapIsIntersection(rules[i], rules[j]);
          var t :| ShareInstant(rules[i], rules[j], t);
          assert Applies(rules[i], rules[j].activityType, t);
          assert Applies(rules[j], rules[j].activityType, t);
          assert false;
        }
      }
    }
  }

  /** The rule that prices an activity at the instant it happened, in row order. */
  function ResolveRule(rules: seq<Rule>, activityType: string, t: int): (r: Option<Rule>)
    ensures r.Some? ==> r.value in rules && Applies(r.value, activityType, t)
    ensures r.None? ==> forall x :: x in rules ==> !Applies(x, activityType, t)
  {
    if rules == [] then None
    else if Applies(rules[0], activityType, t) then Some(rules[0])
    else ResolveRule(rules[1..], activityType, t)
  }

  /** Row order does not matter: any rule that applies is the one resolved. */
  lemma ResolveIsTheOnlyMatch(rules: seq<Rule>, activityType: string, t: int, r: Rule)
    requires NoClash(rules)
    requires r in rules && Applies(r, activityType, t)
    ensures ResolveRule(rules, activityType, t) == Some(r)
  {
    var got := ResolveRule(rules, activityType, t).value;
    var i :| 0 <= i < |rules| && rules[i] == r;
    var j :| 0 <= j < |rules| && rules[j] == got;
    assert !(i < j) by {
      if i < j { assert Clash(rules[i], rules[j]); }
    }
    assert !(j < i) by {
      if j < i { assert Clash(rules[j], rules[i]); }
    }
  }

  lemma ResolveIgnoresRowOrder(rules: seq<Rule>, shuffled: seq<Rule>, activityType: string, t: int)
    requires NoClash(rules) && NoClash(shuffled)
    requires forall x :: x in rules <==> x in shuffled
    ensures ResolveRule(rules, activityType, t) == ResolveRule(shuffled, activityType, t)
  {
    var r := ResolveRule(rules, activityType, t);
    if r.Some? {
      ResolveIsTheOnlyMatch(shuffled, activityType, t, r.value);
    }
  }

  /** Adding rules that clash with nothing never changes a price that already exists. */
  lemma AddingRulesKeepsPrices(rules: seq<Rule>, more: seq<Rule>, activityType: string, t: int)
    requires NoClash(rules + more)
    requires ResolveRule(rules, activityType, t).Some?
    ensures ResolveRule(rules + more, activityType, t) == ResolveRule(rules, activityType, t)
  {
    ResolveIsTheOnlyMatch(rules + more, activityType, t, ResolveRule(rules, activityType, t).value);
  }
}
