/**
 * Stratified, nested holdout assignment (sim/holdout.py).  A mapping of customers to amounts is its
 * entries in insertion order; the hash rank of a customer under a seed is a parameter.
 */
module Holdout {
  import opened Contracts
  import opened Sorting
  import opened Wrappers

  const N_STRATA := 5
  const WHOLE_BPS := 10_000

  datatype Entry = Entry(id: CustomerId, amountPaise: int)

  datatype AssignError = FractionOutOfRange | UnmappedRiskId

  predicate EntryLe(a: Entry, b: Entry) {
    a.amountPaise < b.amountPaise || (a.amountPaise == b.amountPaise && a.id <= b.id)
  }

  function Ids(entries: seq<Entry>): (ids: seq<CustomerId>)
    ensures |ids| == |entries| && forall i :: 0 <= i < |ids| ==> ids[i] == entries[i].id
  {
    if entries == [] then [] else Ids(entries[..|entries| - 1]) + [entries[|entries| - 1].id]
  }

  /** A mapping has each key once. */
  ghost predicate IsMapping(entries: seq<Entry>) {
    forall i, j :: 0 <= i < j < |entries| ==> entries[i].id != entries[j].id
  }

  function Ordered(entries: seq<Entry>): seq<CustomerId> {
    Ids(Sort(entries, EntryLe))
  }

  function StratumSize(n: nat, i: nat): nat {
    n / N_STRATA + (if i < n % N_STRATA then 1 else 0)
  }

  function StratumStart(n: nat, i: nat): nat {
    if i == 0 then 0 else StratumStart(n, i - 1) + StratumSize(n, i - 1)
  }

  lemma StartsAddUp(n: nat)
    ensures StratumStart(n, 0) == 0 && StratumStart(n, N_STRATA) == n
    ensures forall i :: 0 <= i <= N_STRATA ==> StratumStart(n, i) <= n
  {
    assert StratumStart(n, 1) == StratumSize(n, 0);
    assert StratumStart(n, 2) == StratumStart(n, 1) + StratumSize(n, 1);
    assert StratumStart(n, 3) == StratumStart(n, 2) + StratumSize(n, 2);
    assert StratumStart(n, 4) == StratumStart(n, 3) + StratumSize(n, 3);
    assert StratumStart(n, 5) == StratumStart(n, 4) + StratumSize(n, 4);
  }

  /** A slice stops at the end of what there is. */
  function Slice<T>(s: seq<T>, start: nat, end: nat): seq<T>
    requires start <= end
  {
    if end <= |s| then s[start..end] else if start <= |s| then s[start..] else []
  }

  function Stratum(ordered: seq<CustomerId>, i: nat): seq<CustomerId> {
    Slice(ordered, StratumStart(|ordered|, i), StratumStart(|ordered|, i) + StratumSize(|ordered|, i))
  }

  lemma StratumLength(ordered: seq<CustomerId>, i: nat)
    requires i < N_STRATA
    ensures |Stratum(ordered, i)| == StratumSize(|ordered|, i)
  {
    StartsAddUp(|ordered|);
    assert StratumStart(|ordered|, i + 1) <= |ordered|;
  }

  /** The first i strata. */
  function Strata(ordered: seq<CustomerId>, i: nat): seq<seq<CustomerId>> {
    if i == 0 then [] else Strata(ordered, i - 1) + [Stratum(ordered, i - 1)]
  }

  function ByRank(rank: CustomerId -> int): (CustomerId, CustomerId) -> bool {
    (a: CustomerId, b: CustomerId) => rank(a) <= rank(b)
  }

  /** How many a stratum of a given size gives up. */
  function Quota(bps: nat): nat -> nat {
    (size: nat) => size * bps / WHOLE_BPS
  }

  /** The customers a stratum gives up: its first by rank. */
  function Chosen(rank: CustomerId -> int, stratum: seq<CustomerId>, quota: nat -> nat): seq<CustomerId> {
    Slice(Sort(stratum, ByRank(rank)), 0, quota(|stratum|))
  }

  function ChosenFrom(rank: CustomerId -> int, strata: seq<seq<CustomerId>>, quota: nat -> nat): seq<CustomerId> {
    if strata == [] then [] else
      ChosenFrom(rank, strata[..|strata| - 1], quota) + Chosen(rank, strata[|strata| - 1], quota)
  }

  /** round() of a non-negative number: to the nearest integer, a half to the even one. */
  function RoundHalfEven(x: real): int {
    var n := x.Floor;
    var rest := x - n as real;
    if rest < 0.5 || (rest == 0.5 && n % 2 == 0) then n else n + 1
  }

  function FractionBps(fraction: real): (bps: nat)
    requires 0.0 <= fraction < 1.0
    ensures bps <= WHOLE_BPS
  {
    RoundHalfEven(fraction * 10_000.0)
  }

  function Assign(rank: CustomerId -> int, fraction: real, entries: seq<Entry>): Result<set<CustomerId>, AssignError> {
    if !(0.0 <= fraction < 1.0) then Err(FractionOutOfRange) else
      var bps := FractionBps(fraction);
      Ok(if bps == 0 then {} else set id | id in ChosenFrom(rank, Strata(Ordered(entries), N_STRATA), Quota(bps)))
  }

  // ---- Strata ----

  /** Sorting keeps the keys distinct. */
  lemma {:induction false} NoRepeats<T(!new)>(s: seq<T>, t: seq<T>)
    requires multiset(s) == multiset(t) && forall i, j :: 0 <= i < j < |s| ==> s[i] != s[j]
    ensures forall i, j :: 0 <= i < j < |t| ==> t[i] != t[j]
  {
    forall i, j | 0 <= i < j < |t| ensures t[i] != t[j] {
      if t[i] == t[j] {
        OccursTwice(t, i, j);
        DistinctOccursOnce(s, t[i]);
      }
    }
  }

  lemma {:induction false} DistinctOccursOnce<T(!new)>(s: seq<T>, x: T)
    requires forall i, j :: 0 <= i < j < |s| ==> s[i] != s[j]
    ensures multiset(s)[x] <= 1
  {
    if s != [] {
      assert s == s[..|s| - 1] + [s[|s| - 1]];
      DistinctOccursOnce(s[..|s| - 1], x);
      if s[|s| - 1] == x {
        assert x !in s[..|s| - 1];
      }
    }
  }

  ghost predicate AllDifferent(ids: seq<CustomerId>) {
    forall i, j :: 0 <= i < j < |ids| ==> ids[i] != ids[j]
  }

  /** Rearranging a mapping leaves it one. */
  lemma RearrangedIsAMapping(entries: seq<Entry>, sorted: seq<Entry>)
    requires IsMapping(entries) && multiset(sorted) == multiset(entries)
    ensures IsMapping(sorted)
  {
    assert forall i, j :: 0 <= i < j < |entries| ==> entries[i] != entries[j];
    NoRepeats(entries, sorted);
    forall i, j | 0 <= i < j < |sorted| ensures sorted[i].id != sorted[j].id {
      assert sorted[i] in multiset(entries) && sorted[j] in multiset(entries);
      assert sorted[i] in entries && sorted[j] in entries && sorted[i] != sorted[j];
    }
  }

  lemma SortedEntriesAreAMapping(entries: seq<Entry>)
    requires IsMapping(entries)
    ensures IsMapping(Sort(entries, EntryLe)) && AllDifferent(Ordered(entries))
  {
    hide EntryLe, Sort;
    RearrangedIsAMapping(entries, Sort(entries, EntryLe));
  }

  predicate InStratum(n: nat, i: nat, position: nat) {
    StratumStart(n, i) <= position < StratumStart(n, i + 1) && position < n
  }

  function Concat(strata: seq<seq<CustomerId>>): seq<CustomerId> {
    if strata == [] then [] else Concat(strata[..|strata| - 1]) + strata[|strata| - 1]
  }

  lemma NextStratum(ordered: seq<CustomerId>, i: nat)
    requires i < N_STRATA
    ensures StratumStart(|ordered|, i) <= StratumStart(|ordered|, i + 1) <= |ordered|
    ensures Stratum(ordered, i) == ordered[StratumStart(|ordered|, i)..StratumStart(|ordered|, i + 1)]
  {
    StartsAddUp(|ordered|);
    assert StratumStart(|ordered|, i + 1) <= |ordered|;
    hide StratumSize;
  }

  lemma ConcatOneMore(ordered: seq<CustomerId>, i: nat)
    ensures Concat(Strata(ordered, i + 1)) == Concat(Strata(ordered, i)) + Stratum(ordered, i)
  {
    hide Stratum;
    assert Strata(ordered, i + 1)[..|Strata(ordered, i + 1)| - 1] == Strata(ordered, i);
  }

  lemma {:induction false} StrataConcatenate(ordered: seq<CustomerId>, i: nat)
    requires i <= N_STRATA
    ensures StratumStart(|ordered|, i) <= |ordered|
            && Concat(Strata(ordered, i)) == ordered[..StratumStart(|ordered|, i)]
  {
    hide Stratum, Strata, Concat, StratumStart;
    if i == 0 {
      NoStrata(ordered);
    } else {
      StrataConcatenate(ordered, i - 1);
      NextStratum(ordered, i - 1);
      ConcatOneMore(ordered, i - 1);
      SlicesJoin(ordered, StratumStart(|ordered|, i - 1), StratumStart(|ordered|, i));
    }
  }

  lemma NoStrata(ordered: seq<CustomerId>)
    ensures StratumStart(|ordered|, 0) == 0 && Concat(Strata(ordered, 0)) == []
  {
  }

  lemma SlicesJoin<T>(s: seq<T>, start: nat, end: nat)
    requires start <= end <= |s|
    ensures s[..end] == s[..start] + s[start..end]
  {
  }

  lemma {:induction false} StartsMonotone(n: nat, i: nat, j: nat)
    requires i <= j
    ensures StratumStart(n, i) <= StratumStart(n, j)
    decreases j
  {
    if i < j {
      StartsMonotone(n, i, j - 1);
    }
  }

  /**
   * The strata cover the customers once each, in order of amount: every member of a lower stratum
   * comes before every member of a higher one, and sizes differ by at most one, the lower being larger.
   */
  lemma StrataPartition(entries: seq<Entry>)
    requires IsMapping(entries)
    ensures var sorted, ordered := Sort(entries, EntryLe), Ordered(entries);
            && multiset(sorted) == multiset(entries) && Sorted(sorted, EntryLe) && AllDifferent(ordered)
            && Concat(Strata(ordered, N_STRATA)) == ordered
  {
    SortSorts(entries, EntryLe);
    SortedEntriesAreAMapping(entries);
    StrataConcatenate(Ordered(entries), N_STRATA);
    StartsAddUp(|entries|);
  }

  lemma StrataAreOrdered(ordered: seq<CustomerId>, i: nat, j: nat, a: nat, b: nat)
    requires i < j < N_STRATA && InStratum(|ordered|, i, a) && InStratum(|ordered|, j, b)
    ensures a < b && 0 <= |Stratum(ordered, i)| - |Stratum(ordered, j)| <= 1
  {
    StartsMonotone(|ordered|, i + 1, j);
    StratumLength(ordered, i);
    StratumLength(ordered, j);
  }

  /** Smaller amounts first, and the smaller identifier of two customers with the same amount. */
  lemma OrderedByAmount(entries: seq<Entry>, i: nat, j: nat)
    requires IsMapping(entries) && i < j < |entries|
    ensures var sorted := Sort(entries, EntryLe);
            && Ordered(entries)[i] == sorted[i].id && Ordered(entries)[j] == sorted[j].id
            && sorted[i].amountPaise <= sorted[j].amountPaise
            && (sorted[i].amountPaise == sorted[j].amountPaise ==> sorted[i].id < sorted[j].id)
  {
    SortSorts(entries, EntryLe);
    SortedEntriesAreAMapping(entries);
    assert EntryLe(Sort(entries, EntryLe)[i], Sort(entries, EntryLe)[j]);
  }

  /** Rounding never moves a number by more than a half, and of two equally near integers takes the even one. */
  lemma RoundsToNearest(x: real)
    ensures -0.5 <= RoundHalfEven(x) as real - x <= 0.5
    ensures RoundHalfEven(x) as real - x in {0.5, -0.5} ==> RoundHalfEven(x) % 2 == 0
  {
  }

  /** A fraction is taken to the nearest hundredth of a percent. */
  lemma FractionInBasisPoints(fraction: real)
    requires 0.0 <= fraction < 1.0
    ensures -0.5 <= FractionBps(fraction) as real - fraction * 10_000.0 <= 0.5
  {
    RoundsToNearest(fraction * 10_000.0);
  }

  // ---- Counts ----

  lemma QuotaFloors(size: nat, bps: nat)
    requires bps <= WHOLE_BPS
    ensures Quota(bps)(size) <= size
    ensures size * bps - (WHOLE_BPS - 1) <= Quota(bps)(size) * WHOLE_BPS <= size * bps
  {
    assert size * bps <= size * WHOLE_BPS;
  }

  ghost predicate Modest(quota: nat -> nat) {
    forall size :: quota(size) <= size
  }

  function QuotaSum(strata: seq<seq<CustomerId>>, quota: nat -> nat): nat {
    if strata == [] then 0 else QuotaSum(strata[..|strata| - 1], quota) + quota(|strata[|strata| - 1]|)
  }

  lemma ChosenByQuota(rank: CustomerId -> int, stratum: seq<CustomerId>, quota: nat -> nat)
    requires Modest(quota)
    ensures |Chosen(rank, stratum, quota)| == quota(|stratum|)
  {
    assert quota(|stratum|) <= |stratum|;
  }

  lemma {:induction false} ChosenCount(rank: CustomerId -> int, strata: seq<seq<CustomerId>>, quota: nat -> nat)
    requires Modest(quota)
    ensures |ChosenFrom(rank, strata, quota)| == QuotaSum(strata, quota)
  {
    if strata != [] {
      ChosenCount(rank, strata[..|strata| - 1], quota);
      ChosenByQuota(rank, strata[|strata| - 1], quota);
    }
  }

  lemma Distribute(a: int, b: int, c: int)
    ensures (a + b) * c == a * c + b * c
  {
  }

  /** Rounding down in every stratum loses less than one customer each. */
  lemma {:induction false} QuotaNearTheWhole(strata: seq<seq<CustomerId>>, bps: nat)
    requires bps <= WHOLE_BPS
    ensures |Concat(strata)| * bps - |strata| * (WHOLE_BPS - 1) <= QuotaSum(strata, Quota(bps)) * WHOLE_BPS
            <= |Concat(strata)| * bps
  {
    if strata != [] {
      var before, last := strata[..|strata| - 1], strata[|strata| - 1];
      QuotaNearTheWhole(before, bps);
      Distribute(|Concat(before)|, |last|, bps);
      QuotaFloors(|last|, bps);
    }
  }

  lemma ChosenAreMembers(rank: CustomerId -> int, stratum: seq<CustomerId>, quota: nat -> nat)
    requires AllDifferent(stratum)
    ensures AllDifferent(Chosen(rank, stratum, quota))
    ensures forall id :: id in Chosen(rank, stratum, quota) ==> id in stratum
  {
    var ranked := Sort(stratum, ByRank(rank));
    NoRepeats(stratum, ranked);
    SameMembers(stratum, ranked);
  }

  lemma DifferentParts(a: seq<CustomerId>, b: seq<CustomerId>, whole: seq<CustomerId>, start: nat)
    requires start <= |whole| && AllDifferent(whole) && AllDifferent(a) && AllDifferent(b)
    requires forall id :: id in a ==> id in whole[..start]
    requires forall id :: id in b ==> id in whole[start..]
    ensures AllDifferent(a + b)
  {
    forall i, j | 0 <= i < |a| && 0 <= j < |b| ensures a[i] != b[j] {
      assert a[i] in a && b[j] in b;
      var k :| 0 <= k < start && whole[..start][k] == a[i];
      var l :| 0 <= l < |whole| - start && whole[start..][l] == b[j];
      assert whole[k] != whole[start + l];
    }
  }

  /** Nobody is chosen twice, from his own stratum or another. */
  lemma {:induction false} ChosenAreFromStrata(rank: CustomerId -> int, strata: seq<seq<CustomerId>>, quota: nat -> nat)
    requires AllDifferent(Concat(strata))
    ensures AllDifferent(ChosenFrom(rank, strata, quota))
    ensures forall id :: id in ChosenFrom(rank, strata, quota) ==> id in Concat(strata)
  {
    if strata != [] {
      var before, last := strata[..|strata| - 1], strata[|strata| - 1];
      var whole := Concat(strata);
      assert whole[..|Concat(before)|] == Concat(before) && whole[|Concat(before)|..] == last;
      assert AllDifferent(Concat(before)) by {
        assert forall i :: 0 <= i < |Concat(before)| ==> Concat(before)[i] == whole[i];
      }
      assert AllDifferent(last) by {
        assert forall i :: 0 <= i < |last| ==> last[i] == whole[|Concat(before)| + i];
      }
      ChosenAreFromStrata(rank, before, quota);
      ChosenAreMembers(rank, last, quota);
      DifferentParts(ChosenFrom(rank, before, quota), Chosen(rank, last, quota), whole, |Concat(before)|);
    }
  }

  lemma {:induction false} DifferentCount(ids: seq<CustomerId>)
    requires AllDifferent(ids)
    ensures |set id | id in ids| == |ids|
  {
    if ids != [] {
      var last, rest := ids[|ids| - 1], ids[..|ids| - 1];
      DifferentCount(rest);
      assert (set id | id in ids) == (set id | id in rest) + {last};
      assert last !in rest;
    }
  }

  /** The holdout is some of the customers, and of every stratum exactly the floor of the fraction. */
  lemma AssignmentCounts(rank: CustomerId -> int, fraction: real, entries: seq<Entry>)
    requires IsMapping(entries) && 0.0 <= fraction < 1.0
    ensures var held, bps := Assign(rank, fraction, entries).value, FractionBps(fraction);
            && held <= (set e | e in entries :: e.id)
            && |held| == QuotaSum(Strata(Ordered(entries), N_STRATA), Quota(bps))
  {
    var bps, strata := FractionBps(fraction), Strata(Ordered(entries), N_STRATA);
    var quota := Quota(bps);
    forall size ensures quota(size) <= size {
      QuotaFloors(size, bps);
    }
    StrataPartition(entries);
    ChosenAreFromStrata(rank, strata, quota);
    ChosenCount(rank, strata, quota);
    DifferentCount(ChosenFrom(rank, strata, quota));
    MembersOfOrdered(entries);
    if bps == 0 {
      NobodyAtZero(strata);
    }
  }

  lemma {:induction false} NobodyAtZero(strata: seq<seq<CustomerId>>)
    ensures QuotaSum(strata, Quota(0)) == 0
  {
    if strata != [] {
      NobodyAtZero(strata[..|strata| - 1]);
    }
  }

  lemma MembersOfOrdered(entries: seq<Entry>)
    ensures forall id :: id in Ordered(entries) ==> id in (set e | e in entries :: e.id)
  {
    var sorted := Sort(entries, EntryLe);
    SameMembers(entries, sorted);
    forall id | id in Ordered(entries) ensures id in (set e | e in entries :: e.id) {
      var k :| 0 <= k < |sorted| && Ordered(entries)[k] == id;
      assert sorted[k] in entries;
    }
  }

  lemma FiveStrata(ordered: seq<CustomerId>)
    ensures Strata(ordered, N_STRATA)
            == [Stratum(ordered, 0), Stratum(ordered, 1), Stratum(ordered, 2), Stratum(ordered, 3), Stratum(ordered, 4)]
  {
    assert Strata(ordered, 0) == [];
    assert Strata(ordered, 1) == [Stratum(ordered, 0)];
    assert Strata(ordered, 2) == [Stratum(ordered, 0), Stratum(ordered, 1)];
    assert Strata(ordered, 3) == Strata(ordered, 2) + [Stratum(ordered, 2)];
    assert Strata(ordered, 4) == Strata(ordered, 3) + [Stratum(ordered, 3)];
  }

  /** All in all, fewer than five customers below the fraction of the population, and never above it. */
  lemma WithinFiveOfTheFraction(rank: CustomerId -> int, fraction: real, entries: seq<Entry>)
    requires IsMapping(entries) && 0.0 <= fraction < 1.0
    ensures var held, share := |Assign(rank, fraction, entries).value| * WHOLE_BPS, |entries| * FractionBps(fraction);
            share - N_STRATA * WHOLE_BPS < held <= share
  {
    AssignmentCounts(rank, fraction, entries);
    QuotaNearTheWhole(Strata(Ordered(entries), N_STRATA), FractionBps(fraction));
    StrataPartition(entries);
    FiveStrata(Ordered(entries));
  }

  /** Within each stratum it is the lowest-ranked who are held out. */
  lemma LowestRanksAreHeldOut(rank: CustomerId -> int, stratum: seq<CustomerId>, quota: nat -> nat, id: CustomerId,
                              other: CustomerId)
    requires id in Chosen(rank, stratum, quota) && other in stratum && other !in Chosen(rank, stratum, quota)
    ensures rank(id) <= rank(other)
  {
    var ranked := Sort(stratum, ByRank(rank));
    SortSorts(stratum, ByRank(rank));
    SameMembers(stratum, ranked);
    var chosen := Chosen(rank, stratum, quota);
    var a :| 0 <= a < |chosen| && chosen[a] == id;
    var b :| 0 <= b < |ranked| && ranked[b] == other;
    assert forall k :: 0 <= k < |chosen| ==> chosen[k] in chosen && chosen[k] == ranked[k];
    assert b >= |chosen|;
    assert ByRank(rank)(ranked[a], ranked[b]);
  }

  // ---- Nesting, and what the assignment depends on ----

  lemma RoundingIsMonotone(x: real, y: real)
    requires x <= y
    ensures RoundHalfEven(x) <= RoundHalfEven(y)
  {
  }

  ghost predicate AtMost(quota: nat -> nat, more: nat -> nat) {
    forall size :: quota(size) <= more(size)
  }

  lemma ChosenIsPrefix(rank: CustomerId -> int, stratum: seq<CustomerId>, quota: nat -> nat, more: nat -> nat)
    requires AtMost(quota, more)
    ensures Chosen(rank, stratum, quota) <= Chosen(rank, stratum, more)
  {
    assert quota(|stratum|) <= more(|stratum|);
  }

  lemma {:induction false} ChosenGrow(rank: CustomerId -> int, strata: seq<seq<CustomerId>>, quota: nat -> nat,
                                      more: nat -> nat, id: CustomerId)
    requires AtMost(quota, more) && id in ChosenFrom(rank, strata, quota)
    ensures id in ChosenFrom(rank, strata, more)
  {
    var before, last := strata[..|strata| - 1], strata[|strata| - 1];
    if id in ChosenFrom(rank, before, quota) {
      ChosenGrow(rank, before, quota, more, id);
    } else {
      ChosenIsPrefix(rank, last, quota, more);
      var chosen := Chosen(rank, last, quota);
      assert id in chosen;
      assert chosen == Chosen(rank, last, more)[..|chosen|];
    }
  }

  lemma QuotasGrow(bps: nat, more: nat)
    requires bps <= more
    ensures AtMost(Quota(bps), Quota(more))
  {
    forall size: nat ensures Quota(bps)(size) <= Quota(more)(size) {
      assert size * bps <= size * more;
    }
  }

  /** A smaller fraction holds out some of those a larger one holds out, and nobody else. */
  lemma SmallerFractionIsNested(rank: CustomerId -> int, fraction: real, larger: real, entries: seq<Entry>)
    requires 0.0 <= fraction <= larger < 1.0
    ensures Assign(rank, fraction, entries).value <= Assign(rank, larger, entries).value
  {
    RoundingIsMonotone(fraction * 10_000.0, larger * 10_000.0);
    QuotasGrow(FractionBps(fraction), FractionBps(larger));
    forall id | id in Assign(rank, fraction, entries).value ensures id in Assign(rank, larger, entries).value {
      ChosenGrow(rank, Strata(Ordered(entries), N_STRATA), Quota(FractionBps(fraction)), Quota(FractionBps(larger)),
                 id);
    }
  }

  /** The assignment depends on what the mapping holds, not on the order it was built in. */
  lemma OnlyContentsMatter(rank: CustomerId -> int, fraction: real, entries: seq<Entry>, others: seq<Entry>)
    requires multiset(entries) == multiset(others)
    ensures Ordered(entries) == Ordered(others)
    ensures Assign(rank, fraction, entries) == Assign(rank, fraction, others)
  {
    SortIsCanonical(entries, others, EntryLe);
  }

  // ---- As the program computes it ----

  method ComputeStrata(entries: seq<Entry>) returns (result: seq<seq<CustomerId>>)
    ensures result == Strata(Ordered(entries), N_STRATA)
  {
    result := SplitEvenly(Ordered(entries));
  }

  method SplitEvenly(ordered: seq<CustomerId>) returns (result: seq<seq<CustomerId>>)
    ensures result == Strata(ordered, N_STRATA)
  {
    var base, remainder := |ordered| / N_STRATA, |ordered| % N_STRATA;
    result := [];
    var start := 0;
    for i := 0 to N_STRATA
      invariant start == StratumStart(|ordered|, i) && result == Strata(ordered, i)
    {
      assert Stratum(ordered, i) == Slice(ordered, start, start + StratumSize(|ordered|, i));
      var size := base + (if i < remainder then 1 else 0);
      result := result + [Slice(ordered, start, start + size)];
      start := start + size;
    }
  }

  method AssignHoldout(rank: CustomerId -> int, fraction: real, entries: seq<Entry>)
    returns (result: Result<set<CustomerId>, AssignError>)
    ensures result == Assign(rank, fraction, entries)
  {
    if !(0.0 <= fraction < 1.0) {
      return Err(FractionOutOfRange);
    }
    var bps := FractionBps(fraction);
    if bps == 0 {
      return Ok({});
    }
    var strata := ComputeStrata(entries);
    var heldOut := LowestOfEach(rank, strata, bps);
    return Ok(set id | id in heldOut);
  }

  method LowestOfEach(rank: CustomerId -> int, strata: seq<seq<CustomerId>>, bps: nat)
    returns (heldOut: seq<CustomerId>)
    ensures heldOut == ChosenFrom(rank, strata, Quota(bps))
  {
    hide Sort;
    heldOut := [];
    assert strata[..0] == [];
    for i := 0 to |strata|
      invariant heldOut == ChosenFrom(rank, strata[..i], Quota(bps))
    {
      assert strata[..i + 1][..i] == strata[..i];
      var ranked := Sort(strata[i], ByRank(rank));
      var k := |ranked| * bps / WHOLE_BPS;
      assert k == Quota(bps)(|strata[i]|);
      heldOut := heldOut + Slice(ranked, 0, k);
    }
    assert strata[..|strata|] == strata;
  }

  // ---- Amounts at risk ----

  function Lookup(entries: seq<Entry>, id: CustomerId): (r: Option<nat>)
    ensures r.Some? ==> r.value < |entries| && entries[r.value].id == id
    ensures r.None? ==> forall i :: 0 <= i < |entries| ==> entries[i].id != id
  {
    if entries == [] then None
    else if entries[|entries| - 1].id == id then Some(|entries| - 1)
    else Lookup(entries[..|entries| - 1], id)
  }

  function AmountOf(items: seq<RiskItem>, owner: map<RiskId, CustomerId>, id: CustomerId): int {
    if items == [] then 0 else
      var last := items[|items| - 1];
      AmountOf(items[..|items| - 1], owner, id)
      + (if last.riskId in owner && owner[last.riskId] == id then last.amountPaise else 0)
  }

  predicate HasItems(items: seq<RiskItem>, owner: map<RiskId, CustomerId>, id: CustomerId) {
    exists i :: 0 <= i < |items| && items[i].riskId in owner && owner[items[i].riskId] == id
  }

  /** A mapping of exactly the customers that have items, each to the sum of theirs. */
  ghost predicate Totals(entries: seq<Entry>, items: seq<RiskItem>, owner: map<RiskId, CustomerId>) {
    && IsMapping(entries)
    && (forall id :: (exists e :: e in entries && e.id == id) <==> HasItems(items, owner, id))
    && (forall e :: e in entries ==> e.amountPaise == AmountOf(items, owner, e.id))
  }

  lemma {:induction false} NoItemsNoAmount(items: seq<RiskItem>, owner: map<RiskId, CustomerId>, id: CustomerId)
    requires !HasItems(items, owner, id)
    ensures AmountOf(items, owner, id) == 0
  {
    if items != [] {
      assert !HasItems(items[..|items| - 1], owner, id);
      NoItemsNoAmount(items[..|items| - 1], owner, id);
    }
  }

  function Added(entries: seq<Entry>, id: CustomerId, amount: int): seq<Entry> {
    var found := Lookup(entries, id);
    if found.Some? then entries[found.value := Entry(id, entries[found.value].amountPaise + amount)]
    else entries + [Entry(id, amount)]
  }

  lemma AddingKeepsTotals(entries: seq<Entry>, items: seq<RiskItem>, owner: map<RiskId, CustomerId>, item: RiskItem)
    requires Totals(entries, items, owner) && item.riskId in owner
    ensures Totals(Added(entries, owner[item.riskId], item.amountPaise), items + [item], owner)
  {
    var id := owner[item.riskId];
    var after, all := Added(entries, id, item.amountPaise), items + [item];
    assert all[..|items|] == items;
    assert IsMapping(after);
    forall other ensures (exists e :: e in after && e.id == other) <==> HasItems(all, owner, other) {
      AddingKeepsKeys(entries, id, item.amountPaise, other);
      assert all[|items|] == item;
      assert HasItems(all, owner, other) <==> HasItems(items, owner, other) || other == id by {
        assert forall i :: 0 <= i < |items| ==> all[i] == items[i];
      }
    }
    forall e | e in after ensures e.amountPaise == AmountOf(all, owner, e.id) {
      if Lookup(entries, id).None? && e.id == id {
        assert !HasItems(items, owner, id) by {
          assert !exists x :: x in entries && x.id == id;
        }
        NoItemsNoAmount(items, owner, id);
      }
      var k :| 0 <= k < |after| && after[k] == e;
      assert k < |entries| ==> entries[k] in entries && entries[k].id == e.id;
    }
  }

  lemma AddingKeepsKeys(entries: seq<Entry>, id: CustomerId, amount: int, other: CustomerId)
    ensures (exists e :: e in Added(entries, id, amount) && e.id == other)
            <==> (exists e :: e in entries && e.id == other) || other == id
  {
    var after := Added(entries, id, amount);
    if e :| e in entries && e.id == other {
      var k :| 0 <= k < |entries| && entries[k] == e;
      assert after[k] in after && after[k].id == other;
    }
    var found := Lookup(entries, id);
    assert after[if found.Some? then found.value else |entries|].id == id;
    if e :| e in after && e.id == other {
      var k :| 0 <= k < |after| && after[k] == e;
      assert k < |entries| ==> entries[k] in entries && entries[k].id == other;
    }
  }

  /** Total amount at risk per customer; an item nobody is recorded for is a KeyError. */
  method CustomerAmounts(items: seq<RiskItem>, owner: map<RiskId, CustomerId>)
    returns (result: Result<seq<Entry>, AssignError>)
    ensures result.Ok? <==> forall i :: 0 <= i < |items| ==> items[i].riskId in owner
    ensures result.Ok? ==> Totals(result.value, items, owner)
  {
    var totals: seq<Entry> := [];
    assert items[..0] == [];
    for i := 0 to |items|
      invariant Totals(totals, items[..i], owner)
      invariant forall j :: 0 <= j < i ==> items[j].riskId in owner
    {
      if items[i].riskId !in owner {
        return Err(UnmappedRiskId);
      }
      var id := owner[items[i].riskId];
      AddingKeepsTotals(totals, items[..i], owner, items[i]);
      assert items[..i + 1] == items[..i] + [items[i]];
      totals := Added(totals, id, items[i].amountPaise);
    }
    assert items[..|items|] == items;
    return Ok(totals);
  }
}
