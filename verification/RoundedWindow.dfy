/**
 * A window of the program's own agents in which rounding loses a grant: two carts whose incentives
 * fill the merchant's pool to the paisa, and an optimum that keeps only one of them, because each
 * ceiling is rounded up to whole units (sim/optimality_gap.py).
 */
module RoundedWindow {
  import opened Allocator
  import opened AllocatorProperties
  import opened Clock
  import opened Compliance
  import opened Contracts
  import Fatigue
  import opened HardFilter
  import opened Ledger
  import opened LedgerInvariants
  import opened Margin
  import opened Mckp
  import opened MediationOutcomes
  import opened Scopes = Registry
  import opened Shipped
  import opened Sorting
  import opened WindowGap
  import opened WindowLoop
  import opened Wrappers

  const AMOUNT: Positive := 300_020
  const CEILING := 15_001
  const BUDGET: nat := 30_002

  function At(): Instant {
    WindowStartFor(0)
  }

  /** Each customer has one abandoned cart, detected at midnight. */
  function CartOf(customer: CustomerId): RiskItem {
    RiskItem(customer, CART, AMOUNT, UNKNOWN, At() - 9 * HOUR)
  }

  function Scheduled(): seq<Action> {
    [CartRecovery(CartOf(1), 1), CartRecovery(CartOf(2), 2)]
  }

  function Owned(): RiskItems {
    map[1 := (CartOf(1), 1), 2 := (CartOf(2), 2)]
  }

  function AskedFor(customer: CustomerId): Candidate {
    CandidateFrom(CartRecovery(CartOf(customer), customer), CartOf(customer))
  }

  function Presented(): seq<Candidate> {
    [AskedFor(1), AskedFor(2)]
  }

  function SetupOf(terms: Terms): Setup {
    Setup(World(map[1 := [CartOf(1)], 2 := [CartOf(2)]], BUDGET), HeuristicScorer(terms), AGING_BONUS_PAISE, false)
  }

  /** What the agent asks for either customer. */
  lemma Asked(customer: CustomerId)
    ensures var c := AskedFor(customer);
            && c.customerId == customer && c.windowId == 0 && c.sendAfter == At() && c.item == CartOf(customer)
            && c.request.requestId == customer && c.request.maxIncentiveBps == 500
            && c.requestedCeilingPaise == IncentiveCeilingPaise(AMOUNT, 500) == CEILING
            && c.request.intent == "cart_recovery" && c.request.channel == "whatsapp"
  {
    WindowOfStart(0);
  }

  // ---- What each is worth ----

  /** A cart that is its customer's only open item, contacted for the first time. */
  ghost function Worth(terms: Terms): real {
    ScoreNow(SetupOf(terms), EMPTY, AskedFor(1), 500, At())
  }

  lemma WorthSomething(terms: Terms, decayFuture: real)
    requires ShippedTerms(terms, decayFuture)
    ensures Worth(terms) > 0.0
  {
    Asked(1);
    FirstContact(terms, decayFuture);
    NothingElseIsOpen(terms, EMPTY, 1);
    assert Worth(terms) == ExpectedNet(terms, AskedFor(1), 500, 0, []) by {
      hide ExpectedNet, ShippedTerms, AskedFor;
    }
    ScoreOfFirstContact(terms, decayFuture, AskedFor(1), 500, []);
    assert Fatigue.Pow(Fatigue.DECAY, 0) == 1.0;
    hide ShippedTerms, Worth, ExpectedNet, AskedFor;
  }

  /** No grant has been made to this customer, nothing has been denied. */
  ghost predicate Untouched(t: Tables, customer: CustomerId) {
    && t.deniedRiskIds == {} && (forall i :: 0 <= i < |t.grants| ==> t.grants[i].customerId != customer)
  }

  lemma {:induction false} NoContacts(grants: seq<GrantRecord>, customer: CustomerId, at: Instant)
    requires forall i :: 0 <= i < |grants| ==> grants[i].customerId != customer
    ensures CountContacted(grants, customer, at) == 0 && CountSince(grants, customer, at) == 0
  {
    if grants != [] {
      NoContacts(grants[..|grants| - 1], customer, at);
    }
  }

  lemma NothingElseIsOpen(terms: Terms, t: Tables, customer: CustomerId)
    requires customer == 1 || customer == 2
    ensures OtherOpenAmounts(SetupOf(terms).world, t, customer, At(), customer) == []
  {
    assert [CartOf(customer)][1..] == [];
    assert OpenAmounts(t, [], customer, At(), customer) == [];
    assert OpenAmounts(t, [CartOf(customer)], customer, At(), customer) == [];
  }

  lemma AllWorthTheSame(terms: Terms, t: Tables, customer: CustomerId)
    requires (customer == 1 || customer == 2) && Untouched(t, customer)
    ensures ScoreNow(SetupOf(terms), t, AskedFor(customer), 500, At()) == Worth(terms)
  {
    Asked(customer);
    Asked(1);
    NoContacts(t.grants, customer, At());
    NothingElseIsOpen(terms, t, customer);
    NothingElseIsOpen(terms, EMPTY, 1);
    hide OtherOpenAmounts, CountContacted;
  }

  // ---- The two rounds ----

  /** A customer's only candidate, worth something, for a free slot that both pools can pay for. */
  ghost predicate Unopposed(s: Setup, at: Instant, t: Tables, c: Candidate) {
    && !s.fifoMode && ScoreNow(s, t, c, c.request.maxIncentiveBps, at) > 0.0
    && FindRequest(t.grants, c.request.requestId).None?
    && Refusal(s.world, t, c.customerId, c.windowId, at).None?
    && c.requestedCeilingPaise == IncentiveCeilingPaise(c.item.amountPaise, c.request.maxIncentiveBps)
    && 0 <= c.requestedCeilingPaise <= MerchantRemaining(s.world, t, c.windowId)
    && c.requestedCeilingPaise <= CustomerRemaining(s.world, t, c.customerId, c.windowId)
  }

  ghost function FullGrant(s: Setup, at: Instant, t: Tables, c: Candidate): Winner
    requires c.requestedCeilingPaise >= 0
  {
    Winner(c, NewGrant(c, c.requestedCeilingPaise), c.request.maxIncentiveBps,
           ScoreNow(s, t, c, c.request.maxIncentiveBps, at))
  }

  ghost function AfterGrant(s: Setup, at: Instant, t: Tables, c: Candidate): Tables
    requires c.requestedCeilingPaise >= 0
  {
    var t1 := Touch(s.world, t, c.customerId, c.windowId);
    Admit(s.world, Touch(s.world, Remember(t1, c.request), c.customerId, c.windowId), c, c.requestedCeilingPaise, at)
  }

  lemma AttemptSucceeds(s: Setup, at: Instant, t: Tables, c: Candidate)
    requires Unopposed(s, at, t, c)
    ensures AttemptOne(s, at, Contest(t, None, map[]), (ScoreNow(s, t, c, c.request.maxIncentiveBps, at), c))
            == Contest(AfterGrant(s, at, t, c), Some(FullGrant(s, at, t, c)), map[])
  {
    hide ScoreNow, IncentiveCeilingPaise;
  }

  lemma UnopposedIsGranted(s: Setup, at: Instant, t: Tables, outcomes: seq<Outcome>, c: Candidate)
    requires Unopposed(s, at, t, c)
    ensures CustomerRound(s, at, t, outcomes, [c])
            == (outcomes + [GrantOf(FullGrant(s, at, t, c))], AfterGrant(s, at, t, c))
  {
    var score := ScoreNow(s, t, c, c.request.maxIncentiveBps, at);
    AttemptSucceeds(s, at, t, c);
    hide ScoreNow, AttemptOne, AfterGrant, Refusal, NewGrant;
    var a := Admission(t, outcomes, [(score, c)]);
    assert [c][1..] == [] && [(score, c)][1..] == [];
    assert AdmitAll(s, at, Admission(t, outcomes, []), [c]) == a;
    assert Sort([(score, c)], RankOrder(s)) == [(score, c)];
    var k := Contest(AfterGrant(s, at, t, c), Some(FullGrant(s, at, t, c)), map[]);
    assert AttemptAll(s, at, Contest(t, None, map[]), [(score, c)]) == k;
    assert Losers(k, k.tables, outcomes + [GrantOf(k.winner.value)], [(score, c)])
           == (outcomes + [GrantOf(k.winner.value)], k.tables);
  }

  lemma FirstIsUnopposed(terms: Terms, decayFuture: real)
    requires ShippedTerms(terms, decayFuture)
    ensures Unopposed(SetupOf(terms), At(), EMPTY, AskedFor(1))
  {
    Asked(1);
    WorthSomething(terms, decayFuture);
    BudgetOf(terms, 1);
    hide ScoreNow, AskedFor;
  }

  /** A customer's own pool is exactly what its cart may be offered. */
  lemma BudgetOf(terms: Terms, customer: CustomerId)
    requires customer == 1 || customer == 2
    ensures FreshCustomerPool(SetupOf(terms).world, customer) == Pool(CEILING, 0, 0)
  {
    assert [CartOf(customer)][1..] == [];
    assert TotalAmount([CartOf(customer)]) == AMOUNT;
  }

  /** A grant in full adds its record and claim, and takes its ceiling from its own two pools. */
  lemma AfterGrantFacts(s: Setup, at: Instant, t: Tables, c: Candidate)
    requires c.requestedCeilingPaise >= 0
    ensures var t' := AfterGrant(s, at, t, c);
            && |t'.grants| == |t.grants| + 1 && t'.grants[..|t.grants|] == t.grants
            && t'.grants[|t.grants|].customerId == c.customerId
            && t'.grants[|t.grants|].requestId == c.request.requestId
            && |t'.claims| == |t.claims| + 1 && t'.claims[..|t.claims|] == t.claims
            && t'.claims[|t.claims|].customerId == c.customerId && t'.deniedRiskIds == t.deniedRiskIds
            && MerchantRemaining(s.world, t', c.windowId)
               == MerchantRemaining(s.world, t, c.windowId) - c.requestedCeilingPaise
            && (forall o, w :: o != c.customerId ==>
                  CustomerRemaining(s.world, t', o, w) == CustomerRemaining(s.world, t, o, w))
  {
    var t1 := Touch(s.world, t, c.customerId, c.windowId);
    TouchKeepsPools(s.world, t, c.customerId, c.windowId);
    SamePoolsSameRemaining(s.world, t1, Remember(t1, c.request));
    var t2 := Touch(s.world, Remember(t1, c.request), c.customerId, c.windowId);
    TouchKeepsPools(s.world, Remember(t1, c.request), c.customerId, c.windowId);
    var grant := NewGrant(c, c.requestedCeilingPaise);
    var t3 := t2.(grants := t2.grants + [GrantRecord(grant, c.request.requestId, c.customerId, c.windowId)],
                  claims := t2.claims + [Claim(grant.grantId, c.customerId, c.windowId, Reserved, at, None)]);
    SamePoolsSameRemaining(s.world, t2, t3);
    BookChangesRemaining(s.world, t3, c.customerId, c.windowId, c.requestedCeilingPaise, 0);
    hide MerchantRemaining, CustomerRemaining;
  }

  /** A ledger that has granted somebody else and has enough left in both pools refuses nothing. */
  lemma OthersOnly(world: World, t: Tables, customer: CustomerId, w: Window, at: Instant)
    requires MerchantRemaining(world, t, w) > 0 && CustomerRemaining(world, t, customer, w) > 0
    requires Untouched(t, customer) && forall i :: 0 <= i < |t.claims| ==> t.claims[i].customerId != customer
    ensures Refusal(world, t, customer, w, at).None?
  {
    NoContacts(t.grants, customer, at - DAY);
    NoContacts(t.grants, customer, at - 7 * DAY);
    hide MerchantRemaining, CustomerRemaining, CountSince;
  }

  lemma SecondIsUnopposedOn(terms: Terms, decayFuture: real, t: Tables)
    requires ShippedTerms(terms, decayFuture) && Untouched(t, 2)
    requires |t.grants| == 1 && t.grants[0].requestId == 1 && |t.claims| == 1 && t.claims[0].customerId == 1
    requires MerchantRemaining(SetupOf(terms).world, t, 0) == CEILING
    requires CustomerRemaining(SetupOf(terms).world, t, 2, 0) == CEILING
    ensures Unopposed(SetupOf(terms), At(), t, AskedFor(2))
  {
    Asked(2);
    WorthSomething(terms, decayFuture);
    AllWorthTheSame(terms, t, 2);
    OthersOnly(SetupOf(terms).world, t, 2, 0, At());
    assert !SetupOf(terms).fifoMode;
    hide ShippedTerms, ScoreNow, AskedFor, Refusal, MerchantRemaining, CustomerRemaining, SetupOf;
  }

  lemma SecondIsUnopposed(terms: Terms, decayFuture: real)
    requires ShippedTerms(terms, decayFuture)
    ensures AskedFor(1).requestedCeilingPaise >= 0
    ensures var t := AfterGrant(SetupOf(terms), At(), EMPTY, AskedFor(1));
            Unopposed(SetupOf(terms), At(), t, AskedFor(2)) && Untouched(t, 2)
  {
    hide ShippedTerms, AskedFor, AfterGrant, Unopposed, TotalAmount;
    Asked(1);
    AfterGrantFacts(SetupOf(terms), At(), EMPTY, AskedFor(1));
    BudgetOf(terms, 2);
    assert MerchantRemaining(SetupOf(terms).world, EMPTY, 0) == BUDGET;
    assert CustomerRemaining(SetupOf(terms).world, EMPTY, 2, 0) == CEILING;
    hide MerchantRemaining, CustomerRemaining, SetupOf;
    SecondIsUnopposedOn(terms, decayFuture, AfterGrant(SetupOf(terms), At(), EMPTY, AskedFor(1)));
  }

  /** The two outcomes of the window. */
  ghost predicate BothInFull(terms: Terms, outcomes: seq<Outcome>) {
    && |outcomes| == 2
    && (forall i :: 0 <= i < 2 ==>
          && outcomes[i].kind.Granted? && outcomes[i].candidate == AskedFor(i + 1)
          && outcomes[i].effectiveBps == Some(500) && outcomes[i].score == Some(Worth(terms)))
  }

  lemma TwoRounds(s: Setup, first: Outcome, second: Outcome, t: Tables, t': Tables)
    requires CustomerRound(s, At(), EMPTY, [], [AskedFor(1)]) == ([first], t)
    requires CustomerRound(s, At(), t, [first], [AskedFor(2)]) == ([first, second], t')
    ensures AllocateWindow(s, At(), EMPTY, Presented()) == ([first, second], t')
  {
    TwoCustomers();
    hide CustomerRound, AskedFor, Customers, CandidatesOf, Presented;
    var all := Presented();
    assert [1, 2][1..] == [2] && [2][1..] == [];
    assert AllocateFor(s, At(), t', [first, second], all, []) == ([first, second], t');
    assert AllocateFor(s, At(), t, [first], all, [2]) == ([first, second], t');
  }

  lemma BothAreGranted(terms: Terms, decayFuture: real)
    requires ShippedTerms(terms, decayFuture)
    ensures BothInFull(terms, AllocateWindow(SetupOf(terms), At(), EMPTY, Presented()).0)
  {
    hide Unopposed, CustomerRound, AfterGrant, AskedFor, SetupOf, ShippedTerms, ScoreNow, AllocateWindow, Presented;
    var s := SetupOf(terms);
    FirstIsUnopposed(terms, decayFuture);
    SecondIsUnopposed(terms, decayFuture);
    var t := AfterGrant(s, At(), EMPTY, AskedFor(1));
    Asked(1);
    Asked(2);
    AllWorthTheSame(terms, EMPTY, 1);
    AllWorthTheSame(terms, t, 2);
    var first, second := GrantOf(FullGrant(s, At(), EMPTY, AskedFor(1))), GrantOf(FullGrant(s, At(), t, AskedFor(2)));
    UnopposedIsGranted(s, At(), EMPTY, [], AskedFor(1));
    UnopposedIsGranted(s, At(), t, [first], AskedFor(2));
    assert [] + [first] == [first] && [first] + [second] == [first, second];
    TwoRounds(s, first, second, t, AfterGrant(s, At(), t, AskedFor(2)));
  }

  lemma TwoCustomers()
    ensures Customers(Presented()) == [1, 2]
    ensures CandidatesOf(Presented(), 1) == [AskedFor(1)] && CandidatesOf(Presented(), 2) == [AskedFor(2)]
  {
    Asked(1);
    Asked(2);
    hide AskedFor;
    var all := Presented();
    assert all[1..] == [AskedFor(2)] && all[1..][1..] == [];
    assert Customers(all[1..]) == [2];
    assert Of(all[1..], 1) == [] && Of(all[1..], 2) == [AskedFor(2)];
    assert Of(all, 1) == [AskedFor(1)] && Of(all, 2) == [AskedFor(2)];
  }

  // ---- The window of the run ----

  lemma PresentedAreAdmissible(terms: Terms)
    ensures forall c :: c in Presented() ==> EvaluateAll(SetupOf(terms).world, map[], EMPTY, c, At()).Admissible?
    ensures DistinctRisks(Presented())
  {
    WindowOfStart(0);
    Asked(1);
    Asked(2);
    hide AskedFor;
    assert multiset(Presented()) == multiset{AskedFor(1), AskedFor(2)};
  }

  lemma ScheduledForToday()
    ensures Sorted(Scheduled(), ActionLe) && AskedAboutOwned(Scheduled(), Owned())
    ensures forall a :: a in Scheduled() ==> ArrivalWindow(a) == 0
    ensures CandidatesFrom(Scheduled(), Owned()) == Presented()
  {
    WindowOfStart(0);
    var all := Scheduled();
    assert all[..1] == [all[0]] && all[..1][..0] == [];
    assert CandidatesFrom(all[..1], Owned()) == [AskedFor(1)];
  }

  lemma RunGrantsBoth(cfg: RunSetup, terms: Terms, decayFuture: real)
    requires ShippedTerms(terms, decayFuture) && Runs(cfg, SetupOf(terms), Owned(), Scheduled())
    ensures TakeIn(cfg, NewActions(Scheduled(), 0)) == Ok(Intake([], Presented()))
    ensures BothInFull(terms, MediateWindow(cfg, Initial(), 0, Intake([], Presented())).0)
  {
    ScheduledForToday();
    PresentedAreAdmissible(terms);
    hide FilterAndAllocate, SetupOf, Scheduled, Owned, Presented, EvaluateAll, AllocateWindow;
    TakenInOnTheDay(cfg, SetupOf(terms), Owned(), Scheduled(), 0);
    AllocationAlone(SetupOf(terms), map[], At(), EMPTY, Presented());
    BothAreGranted(terms, decayFuture);
    assert [] + Presented() == Presented();
  }

  // ---- What the program reports of it ----

  ghost function TwoEntries(v: real): seq<Entry> {
    [Entry(1, Item(v, CEILING), true), Entry(2, Item(v, CEILING), true)]
  }

  lemma BothAreRecorded(terms: Terms, decayFuture: real, outcomes: seq<Outcome>)
    requires ShippedTerms(terms, decayFuture) && BothInFull(terms, outcomes)
    ensures Entries(outcomes) == TwoEntries(Worth(terms))
  {
    WorthSomething(terms, decayFuture);
    Asked(1);
    Asked(2);
    hide AskedFor, Worth;
    assert outcomes[..1] == [outcomes[0]] && outcomes[..1][..0] == [];
    assert EntryOf(outcomes[0]) == [Entry(1, Item(Worth(terms), CEILING), true)];
    assert EntryOf(outcomes[1]) == [Entry(2, Item(Worth(terms), CEILING), true)];
    hide EntryOf;
    assert Entries(outcomes[..1]) == [Entry(1, Item(Worth(terms), CEILING), true)];
  }

  lemma ItemsOfTwo(a: Entry, b: Entry, customer: CustomerId)
    ensures ItemsOf([a, b], customer)
            == (if a.customerId == customer then [a.item] else []) + (if b.customerId == customer then [b.item] else [])
  {
    var entries := [a, b];
    assert entries[..1] == [a] && entries[..1][..0] == [];
    assert ItemsOf([], customer) == [];
    assert ItemsOf([a], customer) == if a.customerId == customer then [a.item] else [];
  }

  lemma CustomersOfTwo(a: Entry, b: Entry)
    requires a.customerId == 1 && b.customerId == 2
    ensures FirstSeen(CustomersOf([a, b])) == [1, 2]
  {
    assert [a, b][..1] == [a] && [a][..0] == [];
    assert CustomersOf([a]) == [1] && CustomersOf([a, b]) == [1, 2];
    assert [1, 2][..1] == [1] && [1][..0] == [];
    assert FirstSeen([1]) == [1];
  }

  lemma GroupsOfTwo(v: real)
    ensures SnapshotGroups(TwoEntries(v)) == [[Item(v, CEILING)], [Item(v, CEILING)]]
  {
    var entries, item := TwoEntries(v), Item(v, CEILING);
    ItemsOfTwo(entries[0], entries[1], 1);
    ItemsOfTwo(entries[0], entries[1], 2);
    CustomersOfTwo(entries[0], entries[1]);
    assert entries == [entries[0], entries[1]];
    assert ItemsOf(entries, 1) == [item] && ItemsOf(entries, 2) == [item];
    hide ItemsOf, CustomersOf, FirstSeen;
    assert GroupsFor(entries, []) == [];
    assert [1, 2][..1] == [1] && [1][..0] == [];
    assert GroupsFor(entries, [1]) == [[item]];
  }

  lemma TotalsOfTwo(v: real)
    ensures TotalsOf(TwoEntries(v), 100) == Totals(v + v, BUDGET, 302) && Achieved(TwoEntries(v)) == v + v
  {
    var entries := TwoEntries(v);
    assert CeilDiv(CEILING, 100) == 151;
    hide CeilDiv;
    assert entries[..1] == [entries[0]] && entries[..1][..0] == [];
    assert TotalsOf(entries[..1], 100) == Totals(v, CEILING, 151) && Achieved(entries[..1]) == v;
  }

  /** Of 300 units two grants of 151 do not fit. */
  lemma BestOfTwo(v: real, optimal: real)
    requires v > 0.0 && IsOptimum(SnapshotGroups(TwoEntries(v)), 300, 100, optimal)
    ensures optimal <= v
  {
    GroupsOfTwo(v);
    hide SnapshotGroups;
    var groups := SnapshotGroups(TwoEntries(v));
    var choice: Choice :| Counted(groups, choice, 300, 100) && TotalValue(groups, choice) == optimal;
    assert CeilDiv(CEILING, 100) == 151;
    hide CeilDiv;
    assert groups[..1] == [groups[0]] && groups[..1][..0] == [];
    assert TotalUnits(groups[..1][..0], choice[..1][..0], 100) == 0
           && TotalValue(groups[..1][..0], choice[..1][..0]) == 0.0;
    assert TotalUnits(groups[..1], choice[..1], 100) == if choice[0].Some? then 151 else 0;
    assert TotalValue(groups[..1], choice[..1]) == if choice[0].Some? then v else 0.0;
    assert TotalUnits(groups, choice, 100) == TotalUnits(groups[..1], choice[..1], 100) + if choice[1].Some? then 151
           else 0;
    assert TotalValue(groups, choice) == TotalValue(groups[..1], choice[..1]) + if choice[1].Some? then v else 0.0;
  }

  /**
   * The first window of a run of the program's agents over these two carts.  Both are granted in
   * full, filling the merchant's pool exactly; at the default granularity of 100 the program reports
   * an optimum of no more than half of what they achieve.
   */
  method RoundingLosesAGrant(cfg: RunSetup, ghost terms: Terms, ghost decayFuture: real)
    returns (outcomes: seq<Outcome>, achieved: real, optimal: real)
    requires ShippedTerms(terms, decayFuture) && Runs(cfg, SetupOf(terms), Owned(), Scheduled())
    ensures TakeIn(cfg, NewActions(Scheduled(), 0)).Ok?
    ensures outcomes == MediateWindow(cfg, Initial(), 0, TakeIn(cfg, NewActions(Scheduled(), 0)).value).0
    ensures TotalsOf(Entries(outcomes), 100).paise == cfg.setup.world.merchantBudgetPaise
    ensures achieved == Achieved(Entries(outcomes)) > 0.0 && optimal <= achieved / 2.0
  {
    RunGrantsBoth(cfg, terms, decayFuture);
    WorthSomething(terms, decayFuture);
    ghost var v := Worth(terms);
    TotalsOfTwo(v);
    hide MediateWindow, TakeIn, Scheduled, Presented, ShippedTerms, Worth;
    outcomes := MediateWindow(cfg, Initial(), 0, TakeIn(cfg, NewActions(Scheduled(), 0)).value).0;
    BothAreRecorded(terms, decayFuture, outcomes);
    achieved, optimal := ComputeWindowGap(outcomes, BUDGET, 100);
    BestOfTwo(v, optimal);
  }
}
