/**
 * The exact multiple-choice knapsack (sim/optimality_gap.py, _solve_mckp): at most one item of each
 * group, total weight within the capacity, largest total value.
 *
 * The optimum is defined over choices; the dynamic program is proved to compute it.
 */
module Mckp {
  import opened Wrappers

  datatype Item = Item(value: real, weight: nat)

  /** For each group, the index of the item taken, or none. */
  type Choice = seq<Option<nat>>

  ghost predicate IsChoice(groups: seq<seq<Item>>, choice: Choice) {
    && |choice| == |groups|
    && forall i :: 0 <= i < |groups| && choice[i].Some? ==> choice[i].value < |groups[i]|
  }

  /** Ceiling division, written as the source writes it. */
  function CeilDiv(weight: nat, granularity: int): (units: nat)
    requires granularity > 0
    ensures (units - 1) * granularity < weight <= units * granularity
  {
    var q := (0 - weight) / granularity;
    assert q * granularity <= 0 - weight < q * granularity + granularity;
    assert q <= 0;
    -q
  }

  ghost function TotalValue(groups: seq<seq<Item>>, choice: Choice): real
    requires IsChoice(groups, choice)
  {
    if groups == [] then 0.0 else
      var n := |groups| - 1;
      TotalValue(groups[..n], choice[..n]) + (if choice[n].Some? then groups[n][choice[n].value].value else 0.0)
  }

  ghost function TotalUnits(groups: seq<seq<Item>>, choice: Choice, granularity: int): nat
    requires IsChoice(groups, choice) && granularity > 0
  {
    if groups == [] then 0 else
      var n := |groups| - 1;
      TotalUnits(groups[..n], choice[..n], granularity)
      + (if choice[n].Some? then CeilDiv(groups[n][choice[n].value].weight, granularity) else 0)
  }

  ghost function TotalPaise(groups: seq<seq<Item>>, choice: Choice): nat
    requires IsChoice(groups, choice)
  {
    if groups == [] then 0 else
      var n := |groups| - 1;
      TotalPaise(groups[..n], choice[..n]) + (if choice[n].Some? then groups[n][choice[n].value].weight else 0)
  }

  ghost function Taken(choice: Choice): nat {
    if choice == [] then 0 else
      Taken(choice[..|choice| - 1]) + (if choice[|choice| - 1].Some? then 1 else 0)
  }

  ghost predicate Counted(groups: seq<seq<Item>>, choice: Choice, units: int, granularity: int)
    requires granularity > 0
  {
    IsChoice(groups, choice) && TotalUnits(groups, choice, granularity) <= units
  }

  /** `v` is the largest value of a choice that uses at most `units` capacity units. */
  ghost predicate IsOptimum(groups: seq<seq<Item>>, units: int, granularity: int, v: real)
    requires granularity > 0
  {
    && (exists choice :: Counted(groups, choice, units, granularity) && TotalValue(groups, choice) == v)
    && (forall choice :: Counted(groups, choice, units, granularity) ==> TotalValue(groups, choice) <= v)
  }

  // ---- The recurrence the table follows ----

  ghost function Best(groups: seq<seq<Item>>, c: nat, granularity: int): real
    requires granularity > 0
    decreases |groups|, 0
  {
    if groups == [] then 0.0 else
      var n := |groups| - 1;
      BestUsing(groups[..n], groups[n], c, granularity)
  }

  /** The table entry once the items of `offered`, a prefix of the next group, have been tried. */
  ghost function BestUsing(groups: seq<seq<Item>>, offered: seq<Item>, c: nat, granularity: int): real
    requires granularity > 0
    decreases |groups|, 1 + |offered|
  {
    if offered == [] then Best(groups, c, granularity) else
      var k := |offered| - 1;
      var without := BestUsing(groups, offered[..k], c, granularity);
      var units := CeilDiv(offered[k].weight, granularity);
      if units > c then without else
        var with := Best(groups, c - units, granularity) + offered[k].value;
        if with > without then with else without
  }

  lemma {:induction false} BestBoundsChoices(groups: seq<seq<Item>>, choice: Choice, c: nat, granularity: int)
    requires granularity > 0 && Counted(groups, choice, c, granularity)
    ensures TotalValue(groups, choice) <= Best(groups, c, granularity)
  {
    if groups != [] {
      var n := |groups| - 1;
      if choice[n].None? {
        BestBoundsChoices(groups[..n], choice[..n], c, granularity);
        UsingIsAtLeast(groups[..n], groups[n], c, granularity);
      } else {
        var units := CeilDiv(groups[n][choice[n].value].weight, granularity);
        BestBoundsChoices(groups[..n], choice[..n], c - units, granularity);
        UsingIsAtLeastItem(groups[..n], groups[n], choice[n].value, c, granularity);
      }
    }
  }

  lemma {:induction false} UsingIsAtLeast(groups: seq<seq<Item>>, offered: seq<Item>, c: nat, granularity: int)
    requires granularity > 0
    ensures BestUsing(groups, offered, c, granularity) >= Best(groups, c, granularity)
  {
    if offered != [] {
      UsingIsAtLeast(groups, offered[..|offered| - 1], c, granularity);
    }
  }

  lemma {:induction false} UsingIsAtLeastItem(groups: seq<seq<Item>>, offered: seq<Item>, i: nat, c: nat,
                                              granularity: int)
    requires granularity > 0 && i < |offered|
    requires CeilDiv(offered[i].weight, granularity) <= c
    ensures BestUsing(groups, offered, c, granularity)
            >= Best(groups, c - CeilDiv(offered[i].weight, granularity), granularity) + offered[i].value
  {
    if i < |offered| - 1 {
      UsingIsAtLeastItem(groups, offered[..|offered| - 1], i, c, granularity);
    }
  }

  lemma {:induction false} BestIsReached(groups: seq<seq<Item>>, c: nat, granularity: int) returns (choice: Choice)
    requires granularity > 0
    ensures Counted(groups, choice, c, granularity) && TotalValue(groups, choice) == Best(groups, c, granularity)
    decreases |groups|, 0
  {
    choice := [];
    if groups != [] {
      var n := |groups| - 1;
      choice := UsingIsReached(groups[..n], groups[n], groups[n], c, granularity);
      assert groups == groups[..n] + [groups[n]];
    }
  }

  lemma {:induction false} UsingIsReached(
    groups: seq<seq<Item>>, offered: seq<Item>, group: seq<Item>, c: nat, granularity: int) returns (choice: Choice)
    requires granularity > 0 && offered <= group
    ensures Counted(groups + [group], choice, c, granularity)
    ensures TotalValue(groups + [group], choice) == BestUsing(groups, offered, c, granularity)
    decreases |groups|, 1 + |offered|
  {
    var all := groups + [group];
    assert all[..|groups|] == groups;
    if offered == [] {
      var rest := BestIsReached(groups, c, granularity);
      choice := rest + [None];
      assert choice[..|groups|] == rest;
    } else {
      var k := |offered| - 1;
      var units := CeilDiv(offered[k].weight, granularity);
      choice := UsingIsReached(groups, offered[..k], group, c, granularity);
      if units <= c && BestUsing(groups, offered, c, granularity) > BestUsing(groups, offered[..k], c, granularity) {
        var rest := BestIsReached(groups, c - units, granularity);
        choice := rest + [Some(k)];
        assert choice[..|groups|] == rest;
      }
    }
  }

  lemma BestIsOptimum(groups: seq<seq<Item>>, c: nat, granularity: int)
    requires granularity > 0
    ensures IsOptimum(groups, c, granularity, Best(groups, c, granularity))
  {
    var reached := BestIsReached(groups, c, granularity);
    forall choice | Counted(groups, choice, c, granularity)
      ensures TotalValue(groups, choice) <= Best(groups, c, granularity)
    {
      BestBoundsChoices(groups, choice, c, granularity);
    }
  }

  /**
   * The dynamic program.  A negative capacity leaves an empty table, whose maximum the source asks
   * for in vain: None is that ValueError.
   */
  method SolveMckp(groups: seq<seq<Item>>, capacityPaise: int, granularityPaise: int) returns (r: Option<real>)
    requires granularityPaise > 0
    ensures r.None? <==> capacityPaise < 0
    ensures r.Some? ==> IsOptimum(groups, capacityPaise / granularityPaise, granularityPaise, r.value)
  {
    var capacityUnits := capacityPaise / granularityPaise;
    if capacityUnits < 0 {
      return None;
    }
    var dp := new real[capacityUnits + 1](_ => 0.0);
    var k := 0;
    while k < |groups|
      invariant 0 <= k <= |groups| && dp.Length == capacityUnits + 1
      invariant forall c :: 0 <= c <= capacityUnits ==> dp[c] == Best(groups[..k], c, granularityPaise)
    {
      dp := OfferGroup(dp, groups[..k], groups[k], granularityPaise);
      assert groups[..k + 1][..k] == groups[..k];
      k := k + 1;
    }
    assert groups[..k] == groups;

    // max(dp)
    var best := dp[0];
    var i := 1;
    while i <= capacityUnits
      invariant 1 <= i <= capacityUnits + 1
      invariant exists c :: 0 <= c < i && best == dp[c]
      invariant forall c :: 0 <= c < i ==> dp[c] <= best
    {
      if dp[i] > best {
        best := dp[i];
      }
      i := i + 1;
    }
    TableMaximumIsLastEntry(groups, capacityUnits, granularityPaise, dp[..], best);
    BestIsOptimum(groups, capacityUnits, granularityPaise);
    r := Some(best);
  }

  /** One group: every item is tried against the table of the groups before it. */
  method OfferGroup(dp: array<real>, ghost before: seq<seq<Item>>, group: seq<Item>, granularityPaise: int)
    returns (newDp: array<real>)
    requires granularityPaise > 0 && dp.Length > 0
    requires forall c :: 0 <= c < dp.Length ==> dp[c] == Best(before, c, granularityPaise)
    ensures fresh(newDp) && newDp.Length == dp.Length
    ensures forall c :: 0 <= c < dp.Length ==> newDp[c] == BestUsing(before, group, c, granularityPaise)
  {
    var capacityUnits := dp.Length - 1;
    newDp := new real[dp.Length](c requires 0 <= c < dp.Length reads dp => dp[c]);
    var i := 0;
    while i < |group|
      invariant 0 <= i <= |group|
      invariant forall c :: 0 <= c <= capacityUnits ==> newDp[c] == BestUsing(before, group[..i], c, granularityPaise)
    {
      var value := group[i].value;
      var weightUnits := CeilDiv(group[i].weight, granularityPaise);
      assert group[..i + 1][..i] == group[..i];
      if weightUnits <= capacityUnits {
        var c := capacityUnits;
        while c >= weightUnits
          invariant weightUnits - 1 <= c <= capacityUnits
          invariant forall d :: c < d <= capacityUnits ==>
                      newDp[d] == BestUsing(before, group[..i + 1], d, granularityPaise)
          invariant forall d :: 0 <= d <= c ==> newDp[d] == BestUsing(before, group[..i], d, granularityPaise)
        {
          var candidate := dp[c - weightUnits] + value;
          if candidate > newDp[c] {
            newDp[c] := candidate;
          }
          c := c - 1;
        }
      }
      i := i + 1;
    }
    assert group[..i] == group;
  }

  lemma TableMaximumIsLastEntry(groups: seq<seq<Item>>, units: nat, granularity: int, dp: seq<real>, best: real)
    requires granularity > 0 && |dp| == units + 1
    requires forall c :: 0 <= c <= units ==> dp[c] == Best(groups, c, granularity)
    requires exists c :: 0 <= c <= units && best == dp[c]
    requires forall c :: 0 <= c <= units ==> dp[c] <= best
    ensures best == Best(groups, units, granularity)
  {
    var c :| 0 <= c <= units && best == dp[c];
    var choice := BestIsReached(groups, c, granularity);
    BestBoundsChoices(groups, choice, units, granularity);
  }

  // ---- What the capacity units mean in paise ----

  lemma {:induction false} UnitsBracketPaise(groups: seq<seq<Item>>, choice: Choice, granularity: int)
    requires granularity > 0 && IsChoice(groups, choice)
    ensures Brackets(TotalUnits(groups, choice, granularity), TotalPaise(groups, choice), Taken(choice), granularity)
  {
    if groups != [] {
      var n := |groups| - 1;
      UnitsBracketPaise(groups[..n], choice[..n], granularity);
      if choice[n].Some? {
        BracketStep(TotalUnits(groups[..n], choice[..n], granularity), TotalPaise(groups[..n], choice[..n]),
                    Taken(choice[..n]), groups[n][choice[n].value].weight, granularity);
      }
    }
  }

  ghost predicate Brackets(units: int, paise: int, taken: int, granularity: int) {
    paise <= units * granularity <= paise + taken * (granularity - 1)
  }

  lemma BracketStep(units: int, paise: int, taken: int, weight: nat, granularity: int)
    requires granularity > 0 && Brackets(units, paise, taken, granularity)
    ensures Brackets(units + CeilDiv(weight, granularity), paise + weight, taken + 1, granularity)
  {
    var u := CeilDiv(weight, granularity);
    assert (units + u) * granularity == units * granularity + u * granularity;
    assert (u - 1) * granularity == u * granularity - granularity;
    assert (taken + 1) * (granularity - 1) == taken * (granularity - 1) + (granularity - 1);
  }

  lemma UnitsWithin(units: int, amount: int, granularity: int)
    requires granularity > 0
    ensures units <= amount / granularity <==> units * granularity <= amount
  {
    var q := amount / granularity;
    assert q * granularity <= amount < q * granularity + granularity;
    if units <= q {
      assert units * granularity <= q * granularity;
    } else {
      assert units * granularity >= (q + 1) * granularity == q * granularity + granularity;
    }
  }

  /** Rounding up is conservative: whatever the program counts as fitting does fit the real capacity. */
  lemma CountedChoicesFit(groups: seq<seq<Item>>, choice: Choice, capacityPaise: nat, granularity: int)
    requires granularity > 0 && Counted(groups, choice, capacityPaise / granularity, granularity)
    ensures TotalPaise(groups, choice) <= capacityPaise
  {
    UnitsBracketPaise(groups, choice, granularity);
    UnitsWithin(TotalUnits(groups, choice, granularity), capacityPaise, granularity);
  }

  /** The rounding slack: a choice that leaves granularity-1 paise per item taken is always counted. */
  lemma SlackChoicesAreCounted(groups: seq<seq<Item>>, choice: Choice, capacityPaise: nat, granularity: int)
    requires granularity > 0 && IsChoice(groups, choice)
    requires TotalPaise(groups, choice) + Taken(choice) * (granularity - 1) <= capacityPaise
    ensures Counted(groups, choice, capacityPaise / granularity, granularity)
  {
    UnitsBracketPaise(groups, choice, granularity);
    UnitsWithin(TotalUnits(groups, choice, granularity), capacityPaise, granularity);
  }

  /** At a granularity of one paisa the optimum is the true one: over all choices that fit, in paise. */
  lemma ExactAtOnePaisa(groups: seq<seq<Item>>, capacityPaise: nat, v: real)
    requires IsOptimum(groups, capacityPaise, 1, v)
    ensures exists choice ::
              IsChoice(groups, choice) && TotalPaise(groups, choice) <= capacityPaise && TotalValue(groups, choice) == v
    ensures forall choice :: IsChoice(groups, choice) && TotalPaise(groups, choice) <= capacityPaise ==>
                               TotalValue(groups, choice) <= v
  {
    forall choice | IsChoice(groups, choice)
      ensures TotalUnits(groups, choice, 1) == TotalPaise(groups, choice)
    {
      UnitsBracketPaise(groups, choice, 1);
    }
    var best :| Counted(groups, best, capacityPaise, 1) && TotalValue(groups, best) == v;
  }
}
