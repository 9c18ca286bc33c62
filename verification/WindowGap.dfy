/**
 * The per-window optimality gap (sim/optimality_gap.py): what is recorded of a window, and when the
 * optimum the knapsack reports is guaranteed to be at least what the allocator achieved.
 */
module WindowGap {
  import opened Allocator
  import opened AllocatorProperties
  import opened Clock
  import opened Compliance
  import opened Contracts
  import opened Counting
  import opened Ledger
  import opened LedgerInvariants
  import opened Margin
  import opened MediationOutcomes
  import opened Mckp
  import opened RunExecution
  import opened RunInvariant
  import opened RunSafety
  import opened WindowEffects
  import opened WindowGrants
  import opened WindowLoop
  import opened Wrappers

  // ---- What is recorded of a window ----

  datatype Entry = Entry(customerId: CustomerId, item: Item, granted: bool)

  /** Everyone scored above zero is recorded; the granted one at the terms actually granted. */
  predicate Recorded(o: Outcome) {
    o.score.Some? && o.score.value > 0.0
  }

  function WeightOf(o: Outcome): nat {
    Max(0, if o.kind.Granted? && o.effectiveBps.Some?
           then IncentiveCeilingPaise(o.candidate.item.amountPaise, o.effectiveBps.value)
           else o.candidate.requestedCeilingPaise)
  }

  function EntryOf(o: Outcome): seq<Entry> {
    if Recorded(o) then [Entry(o.candidate.customerId, Item(o.score.value, WeightOf(o)), o.kind.Granted?)] else []
  }

  function Entries(outcomes: seq<Outcome>): seq<Entry> {
    if outcomes == [] then [] else Entries(outcomes[..|outcomes| - 1]) + EntryOf(outcomes[|outcomes| - 1])
  }

  function ItemsOf(entries: seq<Entry>, customer: CustomerId): seq<Item> {
    if entries == [] then [] else
      var n := |entries| - 1;
      ItemsOf(entries[..n], customer) + (if entries[n].customerId == customer then [entries[n].item] else [])
  }

  function CustomersOf(entries: seq<Entry>): seq<CustomerId> {
    if entries == [] then [] else CustomersOf(entries[..|entries| - 1]) + [entries[|entries| - 1].customerId]
  }

  function GroupsFor(entries: seq<Entry>, customers: seq<CustomerId>): (groups: seq<seq<Item>>)
    ensures |groups| == |customers|
    decreases |customers|
  {
    if customers == [] then [] else
      var n := |customers| - 1;
      GroupsFor(entries, customers[..n]) + [ItemsOf(entries, customers[n])]
  }

  /** One group per customer, in the order the customers were first recorded. */
  function SnapshotGroups(entries: seq<Entry>): seq<seq<Item>> {
    GroupsFor(entries, FirstSeen(CustomersOf(entries)))
  }

  type Granularity = g: int | g > 0 witness 1

  /** Value, paise, and units of the granularity once each weight is rounded up. */
  datatype Totals = Totals(value: real, paise: nat, units: nat)

  function Nothing(): Totals {
    Totals(0.0, 0, 0)
  }

  function Alone(item: Item, g: Granularity): Totals {
    Totals(item.value, item.weight, CeilDiv(item.weight, g))
  }

  function Add(t: Totals, item: Item, g: Granularity): Totals {
    Totals(t.value + item.value, t.paise + item.weight, t.units + CeilDiv(item.weight, g))
  }

  /** The totals over the granted entries. */
  function TotalsOf(entries: seq<Entry>, g: Granularity): Totals {
    if entries == [] then Nothing() else
      var n := |entries| - 1;
      var t := TotalsOf(entries[..n], g);
      if entries[n].granted then Add(t, entries[n].item, g) else t
  }

  function Achieved(entries: seq<Entry>): real {
    if entries == [] then 0.0 else
      var n := |entries| - 1;
      Achieved(entries[..n]) + (if entries[n].granted then entries[n].item.value else 0.0)
  }

  lemma {:induction false} AchievedIsTotal(entries: seq<Entry>, g: Granularity)
    ensures TotalsOf(entries, g).value == Achieved(entries)
  {
    if entries != [] {
      AchievedIsTotal(entries[..|entries| - 1], g);
    }
  }

  // ---- The collector's loops ----

  function ItemsListed(byCustomer: map<CustomerId, seq<Item>>, customer: CustomerId): seq<Item> {
    if customer in byCustomer then byCustomer[customer] else []
  }

  function AddItem(byCustomer: map<CustomerId, seq<Item>>, e: Entry): map<CustomerId, seq<Item>> {
    byCustomer[e.customerId := ItemsListed(byCustomer, e.customerId) + [e.item]]
  }

  function ItemsByCustomer(entries: seq<Entry>): map<CustomerId, seq<Item>> {
    if entries == [] then map[] else AddItem(ItemsByCustomer(entries[..|entries| - 1]), entries[|entries| - 1])
  }

  lemma CustomersOfStep(entries: seq<Entry>, e: Entry)
    ensures var seen := FirstSeen(CustomersOf(entries));
            FirstSeen(CustomersOf(entries + [e])) == if e.customerId in seen then seen else seen + [e.customerId]
  {
    assert (entries + [e])[..|entries|] == entries;
    var before, all := CustomersOf(entries), CustomersOf(entries + [e]);
    assert all == before + [e.customerId] && all[..|before|] == before;
  }

  lemma {:induction false} ItemsOfCustomer(entries: seq<Entry>, customer: CustomerId)
    ensures ItemsListed(ItemsByCustomer(entries), customer) == ItemsOf(entries, customer)
    ensures customer in ItemsByCustomer(entries) <==> customer in FirstSeen(CustomersOf(entries))
  {
    if entries != [] {
      var n := |entries| - 1;
      ItemsOfCustomer(entries[..n], customer);
      ItemsOfCustomer(entries[..n], entries[n].customerId);
      assert entries[..n] + [entries[n]] == entries;
      CustomersOfStep(entries[..n], entries[n]);
    }
  }

  /** Adds one recorded outcome to what has been collected. */
  method Collect(ghost entries: seq<Entry>, byCustomer: map<CustomerId, seq<Item>>, order: seq<CustomerId>,
                 achieved: real, e: Entry)
    returns (byCustomer': map<CustomerId, seq<Item>>, order': seq<CustomerId>, achieved': real)
    requires byCustomer == ItemsByCustomer(entries) && order == FirstSeen(CustomersOf(entries))
             && achieved == Achieved(entries)
    ensures byCustomer' == ItemsByCustomer(entries + [e]) && order' == FirstSeen(CustomersOf(entries + [e]))
    ensures achieved' == Achieved(entries + [e])
  {
    assert (entries + [e])[..|entries|] == entries;
    CustomersOfStep(entries, e);
    ItemsOfCustomer(entries, e.customerId);
    achieved' := if e.granted then achieved + e.item.value else achieved;
    order' := if e.customerId in byCustomer then order else order + [e.customerId];
    byCustomer' := AddItem(byCustomer, e);
  }

  method CollectOutcome(ghost earlier: seq<Outcome>, byCustomer: map<CustomerId, seq<Item>>, order: seq<CustomerId>,
                        achieved: real, o: Outcome)
    returns (byCustomer': map<CustomerId, seq<Item>>, order': seq<CustomerId>, achieved': real)
    requires var entries := Entries(earlier);
             byCustomer == ItemsByCustomer(entries) && order == FirstSeen(CustomersOf(entries))
               && achieved == Achieved(entries)
    ensures var entries := Entries(earlier + [o]);
            byCustomer' == ItemsByCustomer(entries) && order' == FirstSeen(CustomersOf(entries))
              && achieved' == Achieved(entries)
  {
    assert (earlier + [o])[..|earlier|] == earlier;
    var entry := EntryOf(o);
    if entry != [] {
      byCustomer', order', achieved' := Collect(Entries(earlier), byCustomer, order, achieved, entry[0]);
      assert entry == [entry[0]];
    } else {
      byCustomer', order', achieved' := byCustomer, order, achieved;
      assert Entries(earlier + [o]) == Entries(earlier);
    }
  }

  /** Observes one window: each customer's items, and what the grants achieved. */
  method CollectSnapshot(outcomes: seq<Outcome>) returns (groups: seq<seq<Item>>, achieved: real)
    ensures groups == SnapshotGroups(Entries(outcomes)) && achieved == Achieved(Entries(outcomes))
  {
    var byCustomer, order;
    byCustomer, order, achieved := CollectAll(outcomes);
    groups := GroupItems(Entries(outcomes), byCustomer, order);
  }

  method CollectAll(outcomes: seq<Outcome>)
    returns (byCustomer: map<CustomerId, seq<Item>>, order: seq<CustomerId>, achieved: real)
    ensures var entries := Entries(outcomes);
            byCustomer == ItemsByCustomer(entries) && order == FirstSeen(CustomersOf(entries))
              && achieved == Achieved(entries)
  {
    byCustomer, order, achieved := map[], [], 0.0;
    ghost var seen: seq<Outcome> := [];
    var i := 0;
    while i < |outcomes|
      invariant 0 <= i <= |outcomes| && seen == outcomes[..i]
      invariant var entries := Entries(seen);
                byCustomer == ItemsByCustomer(entries) && order == FirstSeen(CustomersOf(entries))
                  && achieved == Achieved(entries)
    {
      byCustomer, order, achieved := CollectOutcome(seen, byCustomer, order, achieved, outcomes[i]);
      seen := seen + [outcomes[i]];
      i := i + 1;
    }
    assert seen == outcomes;
  }

  method GroupItems(ghost entries: seq<Entry>, byCustomer: map<CustomerId, seq<Item>>, order: seq<CustomerId>)
    returns (groups: seq<seq<Item>>)
    requires byCustomer == ItemsByCustomer(entries)
    ensures groups == GroupsFor(entries, order)
  {
    groups := [];
    var j := 0;
    while j < |order|
      invariant 0 <= j <= |order| && groups == GroupsFor(entries, order[..j])
    {
      assert order[..j + 1][..j] == order[..j];
      ItemsOfCustomer(entries, order[j]);
      groups := groups + [ItemsListed(byCustomer, order[j])];
      j := j + 1;
    }
    assert order[..j] == order;
  }

  /** The window's gap: what was achieved, and the program's optimum for it. */
  method ComputeWindowGap(outcomes: seq<Outcome>, merchantBudgetPaise: nat, granularityPaise: int)
    returns (achieved: real, optimal: real)
    requires granularityPaise > 0
    ensures achieved == Achieved(Entries(outcomes))
    ensures IsOptimum(SnapshotGroups(Entries(outcomes)), merchantBudgetPaise / granularityPaise, granularityPaise,
                      optimal)
  {
    var groups;
    groups, achieved := CollectSnapshot(outcomes);
    var solved := SolveMckp(groups, merchantBudgetPaise, granularityPaise);
    optimal := solved.value;
  }

  // ---- The allocator's own choice, as a choice of the knapsack ----

  ghost predicate OneGrantEach(entries: seq<Entry>) {
    forall i, j :: 0 <= i < j < |entries| && entries[i].granted && entries[j].granted ==>
      entries[i].customerId != entries[j].customerId
  }

  /** Where in the customer's group its granted item is, if it has one. */
  ghost function GrantedIndex(entries: seq<Entry>, customer: CustomerId): Option<nat> {
    if entries == [] then None else
      var n := |entries| - 1;
      if entries[n].granted && entries[n].customerId == customer
      then Some(|ItemsOf(entries[..n], customer)|) else GrantedIndex(entries[..n], customer)
  }

  ghost function GrantedChoice(entries: seq<Entry>, customers: seq<CustomerId>): (choice: Choice)
    ensures |choice| == |customers|
    decreases |customers|
  {
    if customers == [] then [] else
      GrantedChoice(entries, customers[..|customers| - 1]) + [GrantedIndex(entries, customers[|customers| - 1])]
  }

  /** The totals of the listed customers' grants. */
  ghost function TotalsIn(entries: seq<Entry>, customers: seq<CustomerId>, g: Granularity): Totals
    decreases |entries|
  {
    if entries == [] then Nothing() else
      var n := |entries| - 1;
      var t := TotalsIn(entries[..n], customers, g);
      if entries[n].granted && entries[n].customerId in customers then Add(t, entries[n].item, g) else t
  }

  ghost function TotalsFor(entries: seq<Entry>, customer: CustomerId, g: Granularity): Totals
    decreases |entries|
  {
    if entries == [] then Nothing() else
      var n := |entries| - 1;
      var t := TotalsFor(entries[..n], customer, g);
      if entries[n].granted && entries[n].customerId == customer then Add(t, entries[n].item, g) else t
  }

  ghost predicate SumsTo(t: Totals, a: Totals, b: Totals) {
    t.value == a.value + b.value && t.paise == a.paise + b.paise && t.units == a.units + b.units
  }

  lemma {:induction false} NothingWithoutGrant(entries: seq<Entry>, customer: CustomerId, g: Granularity)
    requires forall i :: 0 <= i < |entries| ==> !(entries[i].granted && entries[i].customerId == customer)
    ensures TotalsFor(entries, customer, g) == Nothing() && GrantedIndex(entries, customer).None?
  {
    if entries != [] {
      NothingWithoutGrant(entries[..|entries| - 1], customer, g);
    }
  }

  /** A customer's granted item stands in their group for exactly what they achieved and reserved. */
  lemma {:induction false} GrantedItem(entries: seq<Entry>, customer: CustomerId, g: Granularity)
    requires OneGrantEach(entries)
    ensures var i, items, t := GrantedIndex(entries, customer), ItemsOf(entries, customer), TotalsFor(entries, customer,
          g);
            if i.None? then t == Nothing()
            else i.value < |items| && t == Alone(items[i.value], g)
  {
    if entries != [] {
      var n := |entries| - 1;
      if entries[n].granted && entries[n].customerId == customer {
        NothingWithoutGrant(entries[..n], customer, g);
      } else {
        GrantedItem(entries[..n], customer, g);
      }
    }
  }

  /** Listing one more customer adds exactly that customer's totals. */
  lemma {:induction false} TotalsOfOneMore(entries: seq<Entry>, customers: seq<CustomerId>, more: seq<CustomerId>,
                                           c: CustomerId, g: Granularity)
    requires more == customers + [c] && c !in customers
    ensures SumsTo(TotalsIn(entries, more, g), TotalsIn(entries, customers, g), TotalsFor(entries, c, g))
    decreases |entries|
  {
    if entries != [] {
      TotalsOfOneMore(entries[..|entries| - 1], customers, more, c, g);
    }
  }

  lemma {:induction false} TotalsOfNobody(entries: seq<Entry>, customers: seq<CustomerId>, g: Granularity)
    requires customers == []
    ensures TotalsIn(entries, customers, g) == Nothing()
    decreases |entries|
  {
    if entries != [] {
      TotalsOfNobody(entries[..|entries| - 1], customers, g);
    }
  }

  lemma {:induction false} TotalsOfEverybody(entries: seq<Entry>, customers: seq<CustomerId>, g: Granularity)
    requires forall e :: e in entries ==> e.customerId in customers
    ensures TotalsIn(entries, customers, g) == TotalsOf(entries, g)
    decreases |entries|
  {
    if entries != [] {
      assert entries[|entries| - 1] in entries;
      TotalsOfEverybody(entries[..|entries| - 1], customers, g);
    }
  }

  ghost function ChoiceTotals(groups: seq<seq<Item>>, choice: Choice, g: Granularity): Totals
    requires IsChoice(groups, choice)
  {
    Totals(TotalValue(groups, choice), TotalPaise(groups, choice), TotalUnits(groups, choice, g))
  }

  lemma ChoiceTotalsLast(groups: seq<seq<Item>>, choice: Choice, g: Granularity)
    requires IsChoice(groups, choice) && groups != []
    ensures var n := |groups| - 1;
            var t := ChoiceTotals(groups[..n], choice[..n], g);
            ChoiceTotals(groups, choice, g) == if choice[n].Some? then Add(t, groups[n][choice[n].value], g) else t
  {
  }

  lemma ChoiceExtends(groups: seq<seq<Item>>, choice: Choice, group: seq<Item>, taken: Option<nat>, g: Granularity)
    requires IsChoice(groups, choice) && (taken.Some? ==> taken.value < |group|)
    ensures IsChoice(groups + [group], choice + [taken])
    ensures ChoiceTotals(groups + [group], choice + [taken], g)
            == if taken.Some? then Add(ChoiceTotals(groups, choice, g), group[taken.value], g)
               else ChoiceTotals(groups, choice, g)
  {
    assert (groups + [group])[..|groups|] == groups && (choice + [taken])[..|choice|] == choice;
    ChoiceTotalsLast(groups + [group], choice + [taken], g);
  }

  /** Adding what one customer was granted to both sides keeps them equal. */
  lemma BothGain(t: Totals, taken: Option<nat>, items: seq<Item>, own: Totals, all: Totals, g: Granularity)
    requires if taken.None? then own == Nothing()
             else taken.value < |items| && own == Alone(items[taken.value], g)
    requires SumsTo(all, t, own)
    ensures all == if taken.Some? then Add(t, items[taken.value], g) else t
  {
  }

  /** The allocator's grants form a choice of at most one item per customer, with their very totals. */
  lemma {:induction false} GrantedChoiceTotals(entries: seq<Entry>, customers: seq<CustomerId>, g: Granularity)
    requires OneGrantEach(entries) && Distinct(customers)
    ensures IsChoice(GroupsFor(entries, customers), GrantedChoice(entries, customers))
    ensures ChoiceTotals(GroupsFor(entries, customers), GrantedChoice(entries, customers), g)
            == TotalsIn(entries, customers, g)
    decreases |customers|
  {
    if customers == [] {
      TotalsOfNobody(entries, customers, g);
    } else {
      var n := |customers| - 1;
      var c, listed := customers[n], customers[..n];
      assert customers == listed + [c] && c !in listed;
      GrantedChoiceTotals(entries, listed, g);
      ChoiceExtends(GroupsFor(entries, listed), GrantedChoice(entries, listed), ItemsOf(entries, c),
                    GrantedIndex(entries, c), g) by {
        GrantedItem(entries, c, g);
      }
      assert TotalsIn(entries, customers, g)
             == if GrantedIndex(entries, c).Some? && GrantedIndex(entries, c).value < |ItemsOf(entries, c)|
                then Add(TotalsIn(entries, listed, g), ItemsOf(entries, c)[GrantedIndex(entries, c).value], g)
                  else TotalsIn(entries, listed, g)
      by {
        GrantedItem(entries, c, g);
        TotalsOfOneMore(entries, listed, customers, c, g);
        BothGain(TotalsIn(entries, listed, g), GrantedIndex(entries, c), ItemsOf(entries, c), TotalsFor(entries, c, g),
                 TotalsIn(entries, customers, g), g);
      }
    }
  }

  lemma {:induction false} EveryEntryIsListed(entries: seq<Entry>)
    ensures forall e :: e in entries ==> e.customerId in CustomersOf(entries)
  {
    if entries != [] {
      var n := |entries| - 1;
      EveryEntryIsListed(entries[..n]);
      assert entries == entries[..n] + [entries[n]];
    }
  }

  /** What the allocator granted is one of the choices the knapsack ranges over. */
  lemma AchievedIsAChoice(entries: seq<Entry>, g: Granularity) returns (choice: Choice)
    requires OneGrantEach(entries)
    ensures IsChoice(SnapshotGroups(entries), choice)
            && ChoiceTotals(SnapshotGroups(entries), choice, g) == TotalsOf(entries, g)
  {
    var customers := FirstSeen(CustomersOf(entries));
    FirstSeenFacts(CustomersOf(entries));
    EveryEntryIsListed(entries);
    choice := GrantedChoice(entries, customers);
    GrantedChoiceTotals(entries, customers, g);
    TotalsOfEverybody(entries, customers, g);
  }

  /**
   * At any granularity, the optimum is at least what was achieved as long as the grants, each rounded
   * up to whole units, fit the capacity's units.
   */
  lemma AchievedWithinOptimum(entries: seq<Entry>, capacityPaise: nat, g: Granularity, optimum: real)
    requires OneGrantEach(entries)
    requires IsOptimum(SnapshotGroups(entries), capacityPaise / g, g, optimum)
    requires TotalsOf(entries, g).units <= capacityPaise / g
    ensures Achieved(entries) <= optimum
  {
    var choice := AchievedIsAChoice(entries, g);
    AchievedIsTotal(entries, g);
    assert Counted(SnapshotGroups(entries), choice, capacityPaise / g, g);
  }

  /** At one paisa units are paise. */
  lemma {:induction false} UnitsOfOnePaisa(entries: seq<Entry>)
    ensures TotalsOf(entries, 1).units == TotalsOf(entries, 1).paise
  {
    if entries != [] {
      UnitsOfOnePaisa(entries[..|entries| - 1]);
    }
  }

  // ---- In a run, the grants of a window fit its budget ----

  lemma {:induction false} SumConcat(a: seq<GrantRecord>, b: seq<GrantRecord>, f: GrantRecord -> int)
    ensures Sum(a + b, f) == Sum(a, f) + Sum(b, f)
  {
    if b == [] {
      assert a + b == a;
    } else {
      var n := |b| - 1;
      assert a + b == (a + b[..n]) + [b[n]];
      SumAppend(a + b[..n], b[n], f);
      SumConcat(a, b[..n], f);
    }
  }

  lemma {:induction false} OneEntryEach(outcomes: seq<Outcome>)
    requires GrantsAreOnePerCustomer(outcomes)
    ensures OneGrantEach(Entries(outcomes))
    ensures forall e :: e in Entries(outcomes) && e.granted ==>
              exists i :: 0 <= i < |outcomes| && outcomes[i].kind.Granted?
                && outcomes[i].candidate.customerId == e.customerId
  {
    if outcomes != [] {
      var n := |outcomes| - 1;
      OneEntryEach(outcomes[..n]);
      var earlier := Entries(outcomes[..n]);
      forall e | e in earlier && e.granted
        ensures exists i :: 0 <= i < n && outcomes[i].kind.Granted? && outcomes[i].candidate.customerId == e.customerId
      {
        var i :| 0 <= i < n && outcomes[..n][i].kind.Granted? && outcomes[..n][i].candidate.customerId == e.customerId;
        assert outcomes[..n][i] == outcomes[i];
      }
      assert forall i :: 0 <= i < |earlier| ==> earlier[i] in earlier;
    }
  }

  lemma TotalsOfNext(entries: seq<Entry>, more: seq<Entry>, g: Granularity)
    requires |more| <= 1
    ensures TotalsOf(entries + more, g) == if more != [] && more[0].granted
            then Add(TotalsOf(entries, g), more[0].item, g) else TotalsOf(entries, g)
  {
    if more == [] {
      assert entries + more == entries;
    } else {
      assert (entries + more)[..|entries|] == entries;
    }
  }

  /** A fair grant is recorded at the ceiling it reserved. */
  lemma FairWeight(o: Outcome, w: Window)
    requires FairGrant(o) && Shaped(o, w)
    ensures o.kind.Granted? ==> RecordOf(o) != [] && WeightOf(o) == Reserving(None, w)(RecordOf(o)[0])
    ensures !o.kind.Granted? ==> RecordOf(o) == []
  {
  }

  lemma PaiseStep(paise: nat, o: Outcome, grants: seq<GrantRecord>, w: Window)
    requires FairGrant(o) && Shaped(o, w) && paise <= Sum(grants, Reserving(None, w))
    ensures paise + (if EntryOf(o) != [] && EntryOf(o)[0].granted then EntryOf(o)[0].item.weight else 0)
            <= Sum(grants + RecordOf(o), Reserving(None, w))
  {
    FairWeight(o, w);
    if o.kind.Granted? {
      assert RecordOf(o) == [RecordOf(o)[0]];
      SumAppend(grants, RecordOf(o)[0], Reserving(None, w));
    } else {
      assert grants + RecordOf(o) == grants;
    }
  }

  lemma {:induction false} PaiseAreReserved(outcomes: seq<Outcome>, w: Window, g: Granularity)
    requires AllFair(outcomes) && AllShaped(outcomes, w)
    ensures TotalsOf(Entries(outcomes), g).paise <= Sum(Records(outcomes), Reserving(None, w))
  {
    if outcomes != [] {
      var n := |outcomes| - 1;
      assert outcomes[n] in outcomes;
      PaiseAreReserved(outcomes[..n], w, g);
      TotalsOfNext(Entries(outcomes[..n]), EntryOf(outcomes[n]), g);
      PaiseStep(TotalsOf(Entries(outcomes[..n]), g).paise, outcomes[n], Records(outcomes[..n]), w);
    }
  }

  lemma {:induction false} SpendsNonNegative(cfg: RunSetup, contacts: seq<Contact>)
    requires forall k :: k in contacts ==> k.incentivePaise >= 0
    ensures forall id :: id in Spends(cfg, contacts) ==> Spends(cfg, contacts)[id] >= 0
  {
    if contacts != [] {
      var n := |contacts| - 1;
      var k := contacts[n];
      assert k in contacts;
      SpendsNonNegative(cfg, contacts[..n]);
      forall id | id in Spends(cfg, contacts) ensures Spends(cfg, contacts)[id] >= 0 {
        if id != cfg.requestIdFor(k.agentId, k.riskId) {
          assert id in Spends(cfg, contacts[..n]);
        }
      }
    }
  }

  lemma GrantedPaise(cfg: RunSetup, mediated: Run, outcomes: seq<Outcome>, w: Window, g: Granularity)
    requires MidExecution(cfg, mediated, outcomes, w)
    ensures TotalsOf(Entries(outcomes), g).paise <= Sum(Records(outcomes), Reserving(None, w))
  {
    assert AllFair(outcomes) && AllShaped(outcomes, w) by {
      forall o | o in outcomes ensures FairGrant(o) && Shaped(o, w) {
        assert Executable(cfg, o, w);
      }
    }
    PaiseAreReserved(outcomes, w, g);
  }

  lemma GrantsFitBudget(cfg: RunSetup, mediated: Run, outcomes: seq<Outcome>, w: Window, g: Granularity)
    requires MidExecution(cfg, mediated, outcomes, w)
    ensures TotalsOf(Entries(outcomes), g).paise <= cfg.setup.world.merchantBudgetPaise
  {
    var world, t, settled := cfg.setup.world, mediated.tables, Spends(cfg, mediated.contacts);
    var n := |mediated.contacts|;
    GrantedPaise(cfg, mediated, outcomes, w, g);
    SumConcat(t.grants[..n], Records(outcomes), Reserving(None, w));
    SumNonNegative(t.grants[..n], Reserving(None, w));
    forall k | k in mediated.contacts ensures k.incentivePaise >= 0 {
      var i :| 0 <= i < n && mediated.contacts[i] == k;
      assert ContactOf(cfg, k, t.grants[i]);
    }
    SpendsNonNegative(cfg, mediated.contacts);
    SumNonNegative(t.grants, Spending(settled, None, w));
    assert MerchantPool(world, t, w) == ExpectedPool(t, settled, FreshMerchantPool(world), None, w);
    assert MerchantRemaining(world, t, w) >= 0;
  }

  lemma NoneGrantedFirst(early: seq<Outcome>, late: seq<Outcome>)
    requires NoneGranted(early) && GrantsAreOnePerCustomer(late)
    ensures GrantsAreOnePerCustomer(early + late)
  {
    var all := early + late;
    forall i | 0 <= i < |early| ensures !all[i].kind.Granted? {
      assert early[i] in early;
    }
    assert forall i :: |early| <= i < |all| ==> all[i] == late[i - |early|];
  }

  lemma MediatedWithinOptimum(cfg: RunSetup, mediated: Run, outcomes: seq<Outcome>, w: Window, g: Granularity,
                              optimum: real)
    requires MidExecution(cfg, mediated, outcomes, w) && GrantsAreOnePerCustomer(outcomes)
    requires FundedWorld(cfg.setup.world)
    requires IsOptimum(SnapshotGroups(Entries(outcomes)), cfg.setup.world.merchantBudgetPaise / g, g, optimum)
    requires g == 1 || TotalsOf(Entries(outcomes), g).units <= cfg.setup.world.merchantBudgetPaise / g
    ensures Achieved(Entries(outcomes)) <= optimum
  {
    if g == 1 {
      GrantsFitBudget(cfg, mediated, outcomes, w, g);
      UnitsOfOnePaisa(Entries(outcomes));
    }
    OneEntryEach(outcomes);
    AchievedWithinOptimum(Entries(outcomes), cfg.setup.world.merchantBudgetPaise, g, optimum);
  }

  /**
   * In every window of every run the allocator's result is within the exact optimum of what was
   * recorded: always at a granularity of one paisa, and at a coarser one whenever the grants still fit
   * once rounded up to whole units.
   */
  lemma WindowWithinOptimum(cfg: RunSetup, actions: seq<Action>, run: Run, w: Window, intake: Intake,
                            outcomes: seq<Outcome>, g: Granularity, optimum: real)
    requires ValidSetup(cfg, actions) && RunInv(cfg, actions, run, w)
    requires TakeIn(cfg, NewActions(actions, w)) == Ok(intake) && outcomes == MediateWindow(cfg, run, w, intake).0
    requires IsOptimum(SnapshotGroups(Entries(outcomes)), cfg.setup.world.merchantBudgetPaise / g, g, optimum)
    requires g == 1 || TotalsOf(Entries(outcomes), g).units <= cfg.setup.world.merchantBudgetPaise / g
    ensures Achieved(Entries(outcomes)) <= optimum
  {
    MediateKeeps(cfg, actions, run, w);
    OneGrantPerWindow(cfg, run, w, intake);
    MediatedWithinOptimum(cfg, MediateWindow(cfg, run, w, intake).1, outcomes, w, g, optimum);
  }

  lemma OneGrantPerWindow(cfg: RunSetup, run: Run, w: Window, intake: Intake)
    ensures GrantsAreOnePerCustomer(MediateWindow(cfg, run, w, intake).0)
  {
    var cands, at := run.carried + intake.candidates, WindowStartFor(w);
    FilterAccounts(cfg.setup.world, cfg.optOuts, at, run.tables, cands);
    var f := HardFilter.FilterCandidates(cfg.setup.world, cfg.optOuts, at, run.tables, cands);
    OneGrantPerCustomer(cfg.setup, at, f.tables, f.survivors);
    NoneGrantedFirst(f.outcomes, AllocateWindow(cfg.setup, at, f.tables, f.survivors).0);
  }

  // ---- Rounding: exactly when "achieved is within the optimum" holds ----

  /** The same window with its candidates worth something else. */
  ghost function Revalued(entries: seq<Entry>, values: seq<real>): seq<Entry>
    requires |values| == |entries|
  {
    if entries == [] then [] else
      var n := |entries| - 1;
      Revalued(entries[..n], values[..n]) + [entries[n].(item := entries[n].item.(value := values[n]))]
  }

  lemma {:induction false} RevaluedShape(entries: seq<Entry>, values: seq<real>, g: Granularity)
    requires |values| == |entries|
    ensures var after := Revalued(entries, values);
            && |after| == |entries|
            && (forall i :: 0 <= i < |after| ==> after[i] == entries[i].(item := entries[i].item.(value := values[i])))
            && TotalsOf(after, g).units == TotalsOf(entries, g).units
  {
    if entries != [] {
      var n := |entries| - 1;
      RevaluedShape(entries[..n], values[..n], g);
      assert Revalued(entries, values)[..n] == Revalued(entries[..n], values[..n]);
    }
  }

  ghost predicate AllPositive(values: seq<real>) {
    forall i :: 0 <= i < |values| ==> values[i] > 0.0
  }

  ghost predicate Dominated(entries: seq<Entry>, capacityPaise: nat, g: Granularity) {
    forall optimum :: IsOptimum(SnapshotGroups(entries), capacityPaise / g, g, optimum) ==> Achieved(entries) <= optimum
  }

  /** A grant is worth one, anything else next to nothing. */
  ghost predicate OnlyGrantsMatter(entries: seq<Entry>, little: real) {
    forall i :: 0 <= i < |entries| ==> entries[i].item.value == if entries[i].granted then 1.0 else little
  }

  lemma {:induction false} GroupWorth(entries: seq<Entry>, customer: CustomerId, little: real, g: Granularity)
    requires OneGrantEach(entries) && OnlyGrantsMatter(entries, little)
    ensures var items, own := ItemsOf(entries, customer), GrantedIndex(entries, customer);
            forall j :: 0 <= j < |items| ==> items[j].value == if own == Some(j) then 1.0 else little
  {
    if entries != [] {
      var n := |entries| - 1;
      GroupWorth(entries[..n], customer, little, g);
      GrantedItem(entries[..n], customer, g);
      if entries[n].granted && entries[n].customerId == customer {
        NothingWithoutGrant(entries[..n], customer, g);
      }
    }
  }

  ghost function Times(n: nat, little: real): real {
    if n == 0 then 0.0 else Times(n - 1, little) + little
  }

  lemma {:induction false} TimesIsProduct(n: nat, little: real)
    ensures Times(n, little) == n as real * little
  {
    if n > 0 {
      TimesIsProduct(n - 1, little);
      var m := (n - 1) as real;
      assert n as real == m + 1.0;
      assert (m + 1.0) * little == m * little + little;
    }
  }

  /** A choice either misses a grant, and is worth less, or takes at least all of their units. */
  ghost predicate MissesOrPays(chosen: Totals, granted: Totals, bonus: real) {
    || chosen.value <= granted.value - 1.0 + bonus
    || (chosen.units >= granted.units && chosen.value <= granted.value + bonus)
  }

  lemma OneMoreGroup(chosen: Totals, granted: Totals, bonus: real, items: seq<Item>, own: Option<nat>,
                     taken: Option<nat>, little: real, g: Granularity)
    requires MissesOrPays(chosen, granted, bonus) && little > 0.0
    requires (own.Some? ==> own.value < |items|) && (taken.Some? ==> taken.value < |items|)
    requires forall j :: 0 <= j < |items| ==> items[j].value == if own == Some(j) then 1.0 else little
    ensures MissesOrPays(if taken.Some? then Add(chosen, items[taken.value], g) else chosen,
                         if own.Some? then Add(granted, items[own.value], g) else granted, bonus + little)
  {
  }

  lemma {:induction false} ChoiceMissesOrPays(entries: seq<Entry>, customers: seq<CustomerId>, choice: Choice,
                                              little: real, g: Granularity)
    requires OneGrantEach(entries) && OnlyGrantsMatter(entries, little) && little > 0.0
    requires IsChoice(GroupsFor(entries, customers), choice)
    ensures IsChoice(GroupsFor(entries, customers), GrantedChoice(entries, customers))
    ensures var groups := GroupsFor(entries, customers);
            MissesOrPays(ChoiceTotals(groups, choice, g), ChoiceTotals(groups, GrantedChoice(entries, customers), g),
                         Times(|customers|, little))
    decreases |customers|
  {
    if customers != [] {
      var n := |customers| - 1;
      var c, listed := customers[n], customers[..n];
      var groups, granted := GroupsFor(entries, listed), GrantedChoice(entries, listed);
      var items, own := ItemsOf(entries, c), GrantedIndex(entries, c);
      assert choice == choice[..n] + [choice[n]];
      assert GroupsFor(entries, customers)[n] == items;
      ChoiceOfPrefix(groups, items, choice);
      ChoiceMissesOrPays(entries, listed, choice[..n], little, g);
      GrantedItem(entries, c, g);
      GroupWorth(entries, c, little, g);
      ChoiceExtends(groups, choice[..n], items, choice[n], g);
      ChoiceExtends(groups, granted, items, own, g);
      OneMoreGroup(ChoiceTotals(groups, choice[..n], g), ChoiceTotals(groups, granted, g), Times(n, little), items, own,
                   choice[n], little, g);
    }
  }

  lemma ChoiceOfPrefix(groups: seq<seq<Item>>, group: seq<Item>, choice: Choice)
    requires IsChoice(groups + [group], choice)
    ensures IsChoice(groups, choice[..|groups|])
  {
    assert forall i :: 0 <= i < |groups| ==> (groups + [group])[i] == groups[i];
  }

  /** If the rounded grants do not fit, the optimum misses one when only they are worth anything. */
  lemma NotDominated(entries: seq<Entry>, capacityPaise: nat, g: Granularity, little: real)
    requires OneGrantEach(entries) && OnlyGrantsMatter(entries, little) && little > 0.0
    requires Times(|SnapshotGroups(entries)|, little) < 1.0
    requires TotalsOf(entries, g).units > capacityPaise / g
    ensures !Dominated(entries, capacityPaise, g)
  {
    var units, customers := capacityPaise / g, FirstSeen(CustomersOf(entries));
    var groups := SnapshotGroups(entries);
    FirstSeenFacts(CustomersOf(entries));
    EveryEntryIsListed(entries);
    GrantedChoiceTotals(entries, customers, g);
    TotalsOfEverybody(entries, customers, g);
    AchievedIsTotal(entries, g);
    BestIsOptimum(groups, units, g);
    var optimum := Best(groups, units, g);
    var choice :| Counted(groups, choice, units, g) && TotalValue(groups, choice) == optimum;
    ChoiceMissesOrPays(entries, customers, choice, little, g);
    assert ChoiceTotals(groups, choice, g).units <= units;
    assert optimum < Achieved(entries);
  }

  /**
   * The exact condition, for any recorded window: the program's optimum is at least what was achieved
   * whatever its candidates are worth, exactly when the granted weights, each rounded up to whole
   * units, fit the capacity's units.  That the weights themselves fit is not enough.
   */
  lemma RoundedOptimumDominatesIff(entries: seq<Entry>, capacityPaise: nat, g: Granularity)
    requires OneGrantEach(entries)
    ensures (forall values :: |values| == |entries| && AllPositive(values) ==>
               Dominated(Revalued(entries, values), capacityPaise, g))
            <==> TotalsOf(entries, g).units <= capacityPaise / g
  {
    if TotalsOf(entries, g).units <= capacityPaise / g {
      forall values | |values| == |entries| && AllPositive(values)
        ensures Dominated(Revalued(entries, values), capacityPaise, g)
      {
        RevaluedIsDominated(entries, values, capacityPaise, g);
      }
    } else {
      var values := WorstValues(entries, capacityPaise, g);
      assert !Dominated(Revalued(entries, values), capacityPaise, g);
    }
  }

  lemma RevaluedIsDominated(entries: seq<Entry>, values: seq<real>, capacityPaise: nat, g: Granularity)
    requires OneGrantEach(entries) && |values| == |entries| && TotalsOf(entries, g).units <= capacityPaise / g
    ensures Dominated(Revalued(entries, values), capacityPaise, g)
  {
    var after := Revalued(entries, values);
    RevaluedShape(entries, values, g);
    assert OneGrantEach(after);
    forall optimum | IsOptimum(SnapshotGroups(after), capacityPaise / g, g, optimum)
      ensures Achieved(after) <= optimum
    {
      AchievedWithinOptimum(after, capacityPaise, g, optimum);
    }
  }

  lemma LittleEnough(n: nat, little: real)
    requires little == 1.0 / (n as real + 1.0)
    ensures little > 0.0 && Times(n, little) < 1.0
  {
    TimesIsProduct(n, little);
    assert little * (n as real + 1.0) == 1.0;
    assert little * (n as real + 1.0) == n as real * little + little;
  }

  lemma WorthlessLosersBreakIt(entries: seq<Entry>, values: seq<real>, little: real, capacityPaise: nat, g: Granularity)
    requires OneGrantEach(entries) && TotalsOf(entries, g).units > capacityPaise / g
    requires |values| == |entries| && forall i :: 0 <= i < |entries| ==> values[i] == if entries[i].granted then 1.0
                                        else little
    requires little > 0.0 && Times(|SnapshotGroups(entries)|, little) < 1.0
    ensures !Dominated(Revalued(entries, values), capacityPaise, g)
  {
    RevaluedShape(entries, values, g);
    SameGroups(entries, values, g);
    hide Revalued, TotalsOf, Times, Dominated;
    var after := Revalued(entries, values);
    assert OneGrantEach(after) && OnlyGrantsMatter(after, little);
    NotDominated(after, capacityPaise, g, little);
  }

  lemma WorstValues(entries: seq<Entry>, capacityPaise: nat, g: Granularity) returns (values: seq<real>)
    requires OneGrantEach(entries) && TotalsOf(entries, g).units > capacityPaise / g
    ensures |values| == |entries| && AllPositive(values) && !Dominated(Revalued(entries, values), capacityPaise, g)
  {
    hide SnapshotGroups, TotalsOf, Revalued, Dominated, Times;
    var n := |SnapshotGroups(entries)|;
    var little := 1.0 / (n as real + 1.0);
    LittleEnough(n, little);
    values := seq(|entries|, i requires 0 <= i < |entries| => if entries[i].granted then 1.0 else little);
    WorthlessLosersBreakIt(entries, values, little, capacityPaise, g);
  }

  lemma {:induction false} SameGroups(entries: seq<Entry>, values: seq<real>, g: Granularity)
    requires |values| == |entries|
    ensures CustomersOf(Revalued(entries, values)) == CustomersOf(entries)
  {
    if entries != [] {
      var n := |entries| - 1;
      SameGroups(entries[..n], values[..n], g);
      RevaluedShape(entries[..n], values[..n], g);
      assert Revalued(entries, values)[..n] == Revalued(entries[..n], values[..n]);
    }
  }
}
