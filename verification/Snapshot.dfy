/**
 * What the observer of a window records (sim/optimality_gap.py), said of the outcomes themselves:
 * everybody scored above zero, granted or not, in outcome order and one group per customer.
 */
module Snapshot {
  import opened Allocator
  import opened Compliance
  import opened Contracts
  import opened Counting
  import opened Mckp
  import opened WindowGap
  import opened Wrappers

  /** The i-th outcome is this customer's and was scored above zero. */
  ghost predicate ScoredAt(outcomes: seq<Outcome>, customer: CustomerId, i: nat) {
    i < |outcomes| && outcomes[i].candidate.customerId == customer
    && outcomes[i].score.Some? && outcomes[i].score.value > 0.0
  }

  /** Where the customer's outcomes scored above zero are, in order. */
  ghost predicate Positions(outcomes: seq<Outcome>, customer: CustomerId, at: seq<nat>) {
    Increasing(at) && forall i: nat :: i in at <==> ScoredAt(outcomes, customer, i)
  }

  /**
   * What taking this candidate costs: a grant the ceiling of the rate it was granted, anybody else
   * what it asked for.
   */
  ghost function PaiseOf(o: Outcome): int {
    if o.kind.Granted? && o.effectiveBps.Some? then o.candidate.item.amountPaise * o.effectiveBps.value / 10_000
    else o.candidate.requestedCeilingPaise
  }

  /** An outcome recorded as an item; a weight below nothing cannot occur and counts as nothing. */
  ghost predicate RecordedAs(o: Outcome, item: Item) {
    o.score == Some(item.value) && item.weight == if PaiseOf(o) >= 0 then PaiseOf(o) else 0
  }

  /** A customer's group is exactly its outcomes scored above zero, in outcome order. */
  ghost predicate Lists(outcomes: seq<Outcome>, customer: CustomerId, group: seq<Item>, at: seq<nat>) {
    && Positions(outcomes, customer, at) && |group| == |at|
    && forall j :: 0 <= j < |at| ==> at[j] < |outcomes| && RecordedAs(outcomes[at[j]], group[j])
  }

  lemma LastEntry(outcomes: seq<Outcome>, customer: CustomerId)
    requires outcomes != []
    ensures var n := |outcomes| - 1;
            var own := ItemsOf(Entries(outcomes[..n]), customer);
            if ScoredAt(outcomes, customer, n)
            then |ItemsOf(Entries(outcomes), customer)| == |own| + 1 && own <= ItemsOf(Entries(outcomes), customer)
                 && RecordedAs(outcomes[n], ItemsOf(Entries(outcomes), customer)[|own|])
            else ItemsOf(Entries(outcomes), customer) == own
  {
    var n := |outcomes| - 1;
    var earlier, entry := Entries(outcomes[..n]), EntryOf(outcomes[n]);
    if entry == [] {
      assert Entries(outcomes) == earlier;
    } else {
      assert Entries(outcomes) == earlier + [entry[0]];
      assert (earlier + [entry[0]])[..|earlier|] == earlier;
    }
  }

  lemma {:induction false} GroupLists(outcomes: seq<Outcome>, customer: CustomerId) returns (at: seq<nat>)
    ensures Lists(outcomes, customer, ItemsOf(Entries(outcomes), customer), at)
  {
    if outcomes == [] {
      at := [];
    } else {
      var n := |outcomes| - 1;
      var before := GroupLists(outcomes[..n], customer);
      LastEntry(outcomes, customer);
      at := if ScoredAt(outcomes, customer, n) then before + [n] else before;
      OneMorePosition(outcomes, customer, before, at);
      hide *;
      ListsOneMore(outcomes, customer, ItemsOf(Entries(outcomes[..n]), customer), ItemsOf(Entries(outcomes), customer),
                   before, at);
    }
  }

  lemma ListsOneMore(outcomes: seq<Outcome>, customer: CustomerId, own: seq<Item>, group: seq<Item>, before: seq<nat>,
                     at: seq<nat>)
    requires outcomes != [] && Lists(outcomes[..|outcomes| - 1], customer, own, before)
    requires Positions(outcomes, customer, at)
    requires var n := |outcomes| - 1;
             if ScoredAt(outcomes, customer, n)
             then at == before + [n] && |group| == |own| + 1 && own <= group && RecordedAs(outcomes[n], group[|own|])
             else at == before && group == own
    ensures Lists(outcomes, customer, group, at)
  {
    hide Positions, RecordedAs, ScoredAt;
    var n := |outcomes| - 1;
    forall j | 0 <= j < |at| ensures at[j] < |outcomes| && RecordedAs(outcomes[at[j]], group[j]) {
      if j < |before| {
        assert outcomes[..n][before[j]] == outcomes[before[j]] && at[j] == before[j] && group[j] == own[j];
      }
    }
  }

  lemma OneMorePosition(outcomes: seq<Outcome>, customer: CustomerId, before: seq<nat>, at: seq<nat>)
    requires outcomes != [] && Positions(outcomes[..|outcomes| - 1], customer, before)
    requires at == if ScoredAt(outcomes, customer, |outcomes| - 1) then before + [|outcomes| - 1] else before
    ensures Positions(outcomes, customer, at)
  {
    var n := |outcomes| - 1;
    forall i: nat ensures ScoredAt(outcomes, customer, i)
                          <==> ScoredAt(outcomes[..n], customer, i) || (i == n && ScoredAt(outcomes, customer, n))
    {
      if i < n {
        assert outcomes[..n][i] == outcomes[i];
      }
    }
    forall j | 0 <= j < |before| ensures before[j] < n {
      assert before[j] in before;
      assert ScoredAt(outcomes[..n], customer, before[j]);
    }
    forall i: nat ensures i in at <==> ScoredAt(outcomes, customer, i) {
      assert i in before <==> ScoredAt(outcomes[..n], customer, i);
    }
  }

  lemma {:induction false} GroupIndex(entries: seq<Entry>, customers: seq<CustomerId>, k: nat)
    requires k < |customers|
    ensures GroupsFor(entries, customers)[k] == ItemsOf(entries, customers[k])
    decreases |customers|
  {
    var n := |customers| - 1;
    if k < n {
      GroupIndex(entries, customers[..n], k);
    }
  }

  /** Some outcome of this customer was scored above zero. */
  ghost predicate Scored(outcomes: seq<Outcome>, customer: CustomerId) {
    exists i: nat :: ScoredAt(outcomes, customer, i)
  }

  lemma ScoredOneMore(outcomes: seq<Outcome>, customer: CustomerId)
    requires outcomes != []
    ensures var n := |outcomes| - 1;
            Scored(outcomes, customer) <==> Scored(outcomes[..n], customer) || ScoredAt(outcomes, customer, n)
  {
    var n := |outcomes| - 1;
    if i: nat :| ScoredAt(outcomes[..n], customer, i) {
      assert ScoredAt(outcomes, customer, i);
    }
    if i: nat :| ScoredAt(outcomes, customer, i) {
      assert i < n ==> ScoredAt(outcomes[..n], customer, i);
    }
  }

  lemma {:induction false} RecordedCustomers(outcomes: seq<Outcome>, customer: CustomerId)
    ensures customer in CustomersOf(Entries(outcomes)) <==> Scored(outcomes, customer)
  {
    if outcomes != [] {
      var n := |outcomes| - 1;
      assert ScoredAt(outcomes, customer, n)
             <==> EntryOf(outcomes[n]) != [] && EntryOf(outcomes[n])[0].customerId == customer;
      assert |EntryOf(outcomes[n])| <= 1;
      hide EntryOf, Scored, ScoredAt, CustomersOf;
      RecordedCustomers(outcomes[..n], customer);
      CustomersOneMore(Entries(outcomes[..n]), EntryOf(outcomes[n]), customer);
      ScoredOneMore(outcomes, customer);
    }
  }

  lemma CustomersOneMore(entries: seq<Entry>, more: seq<Entry>, customer: CustomerId)
    requires |more| <= 1
    ensures customer in CustomersOf(entries + more)
            <==> customer in CustomersOf(entries) || (more != [] && more[0].customerId == customer)
  {
    if more == [] {
      assert entries + more == entries;
    } else {
      assert (entries + more)[..|entries|] == entries;
    }
  }

  ghost predicate ListsSomewhere(outcomes: seq<Outcome>, customer: CustomerId, group: seq<Item>) {
    exists at: seq<nat> :: Lists(outcomes, customer, group, at)
  }

  /** One group for each customer with an outcome scored above zero, and for nobody else. */
  ghost predicate Faithful(outcomes: seq<Outcome>, customers: seq<CustomerId>, groups: seq<seq<Item>>) {
    && |groups| == |customers|
    && (forall j, k :: 0 <= j < k < |customers| ==> customers[j] != customers[k])
    && (forall c :: c in customers <==> Scored(outcomes, c))
    && (forall k :: 0 <= k < |groups| ==> ListsSomewhere(outcomes, customers[k], groups[k]))
  }

  /** What the knapsack is solved over is the window as it was, losers included. */
  lemma SnapshotIsFaithful(outcomes: seq<Outcome>)
    ensures Faithful(outcomes, FirstSeen(CustomersOf(Entries(outcomes))), SnapshotGroups(Entries(outcomes)))
  {
    var entries := Entries(outcomes);
    var customers, groups := FirstSeen(CustomersOf(entries)), SnapshotGroups(entries);
    FirstSeenFacts(CustomersOf(entries));
    hide FirstSeen, CustomersOf, Entries, ItemsOf, Lists, Scored, ScoredAt;
    forall c ensures c in customers <==> Scored(outcomes, c) {
      RecordedCustomers(outcomes, c);
    }
    forall k | 0 <= k < |groups| ensures ListsSomewhere(outcomes, customers[k], groups[k]) {
      GroupIndex(entries, customers, k);
      var at := GroupLists(outcomes, customers[k]);
    }
  }

  // ---- What was achieved ----

  /** Granted, and scored above zero. */
  ghost predicate Achieves(o: Outcome) {
    o.kind.Granted? && o.score.Some? && o.score.value > 0.0
  }

  ghost predicate AreScored(outcomes: seq<Outcome>, at: seq<nat>) {
    forall j :: 0 <= j < |at| ==> at[j] < |outcomes| && outcomes[at[j]].score.Some?
  }

  ghost function ScoresAt(outcomes: seq<Outcome>, at: seq<nat>): real
    requires AreScored(outcomes, at)
  {
    if at == [] then 0.0 else
      var n := |at| - 1;
      ScoresAt(outcomes, at[..n]) + outcomes[at[n]].score.value
  }

  lemma {:induction false} ScoresOfPrefix(outcomes: seq<Outcome>, n: nat, at: seq<nat>)
    requires n <= |outcomes| && forall j :: 0 <= j < |at| ==> at[j] < n && outcomes[at[j]].score.Some?
    ensures ScoresAt(outcomes[..n], at) == ScoresAt(outcomes, at)
  {
    if at != [] {
      ScoresOfPrefix(outcomes, n, at[..|at| - 1]);
    }
  }

  /** Adding the last outcome to the list adds its score; leaving it out changes nothing. */
  lemma ScoresOneMore(outcomes: seq<Outcome>, before: seq<nat>, at: seq<nat>)
    requires outcomes != [] && AreScored(outcomes[..|outcomes| - 1], before)
    requires at == before || (at == before + [|outcomes| - 1] && outcomes[|outcomes| - 1].score.Some?)
    ensures AreScored(outcomes, at)
    ensures ScoresAt(outcomes, at) == ScoresAt(outcomes[..|outcomes| - 1], before)
                                      + (if at == before then 0.0 else outcomes[|outcomes| - 1].score.value)
  {
    var n := |outcomes| - 1;
    forall j | 0 <= j < |before| ensures before[j] < n && outcomes[before[j]].score.Some? {
      assert outcomes[..n][before[j]] == outcomes[before[j]];
    }
    ScoresOfPrefix(outcomes, n, before);
    assert at != before ==> at[..|before|] == before;
  }

  lemma EntriesOneMore(outcomes: seq<Outcome>)
    requires outcomes != []
    ensures var n := |outcomes| - 1;
            Achieved(Entries(outcomes))
            == Achieved(Entries(outcomes[..n])) + (if Achieves(outcomes[n]) then outcomes[n].score.value else 0.0)
  {
    var n := |outcomes| - 1;
    AchievedOneMore(Entries(outcomes[..n]), EntryOf(outcomes[n]));
  }

  /** The achieved value is the sum of the grants' own scores. */
  lemma {:induction false} AchievedIsTheSum(outcomes: seq<Outcome>) returns (at: seq<nat>)
    ensures Picks(outcomes, (o: Outcome) => Achieves(o), at)
    ensures AreScored(outcomes, at) && Achieved(Entries(outcomes)) == ScoresAt(outcomes, at)
  {
    var achieves := (o: Outcome) => Achieves(o);
    if outcomes == [] {
      at := [];
    } else {
      var n := |outcomes| - 1;
      var before := AchievedIsTheSum(outcomes[..n]);
      EntriesOneMore(outcomes);
      at := if Achieves(outcomes[n]) then before + [n] else before;
      hide Achieved, Entries, Picks, ScoresAt, AreScored;
      PicksLast(outcomes, achieves, before, at);
      ScoresOneMore(outcomes, before, at);
    }
  }

  lemma AchievedOneMore(entries: seq<Entry>, more: seq<Entry>)
    requires |more| <= 1
    ensures Achieved(entries + more)
            == Achieved(entries) + (if more != [] && more[0].granted then more[0].item.value else 0.0)
  {
    if more == [] {
      assert entries + more == entries;
    } else {
      assert (entries + more)[..|entries|] == entries;
    }
  }
}
