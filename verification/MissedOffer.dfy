/**
 * A window in which the allocator misses most of what could be had: the first customer's cart takes
 * the merchant's whole pool, and the second customer's payment, worth more and costing no incentive
 * at all, is refused for want of margin.  The observer records both, so the optimum shows it.
 */
module MissedOffer {
  import opened Allocator
  import opened AllocatorProperties
  import opened Clock
  import opened Compliance
  import opened Contracts
  import opened HardFilter
  import opened Ledger
  import opened Mckp
  import opened MediationOutcomes
  import opened RoundedWindow
  import opened Scopes = Registry
  import opened Shipped
  import opened Sorting
  import opened WindowGap
  import opened WindowLoop
  import opened Wrappers

  /** The second customer's failed payment of 5000 rupees. */
  function Payment(): RiskItem {
    RiskItem(2, PAYMENT, 500_000, UNKNOWN, At() - 9 * HOUR)
  }

  function Actions(): seq<Action> {
    [CartRecovery(CartOf(1), 1), PaymentRetry(Payment(), 2)]
  }

  function Items(): RiskItems {
    map[1 := (CartOf(1), 1), 2 := (Payment(), 2)]
  }

  function Retried(): Candidate {
    CandidateFrom(PaymentRetry(Payment(), 2), Payment())
  }

  function Candidates(): seq<Candidate> {
    [AskedFor(1), Retried()]
  }

  /** The merchant's pool is what the cart may be offered. */
  function Merchant(terms: Terms): Setup {
    Setup(World(map[1 := [CartOf(1)], 2 := [Payment()]], CEILING), HeuristicScorer(terms), AGING_BONUS_PAISE, false)
  }

  lemma RetriedIs()
    ensures var c := Retried();
            && c.customerId == 2 && c.windowId == 0 && c.sendAfter == At() && c.item == Payment()
            && c.request.requestId == 2 && c.request.maxIncentiveBps == 0 && c.requestedCeilingPaise == 0
            && c.request.intent == "payment_retry" && c.request.channel == "sms" && c.windowsDeferred == 0
  {
    WindowOfStart(0);
  }

  // ---- What each is worth ----

  ghost function CartWorth(terms: Terms): real {
    ScoreNow(Merchant(terms), EMPTY, AskedFor(1), 500, At())
  }

  ghost function PaymentWorth(terms: Terms): real {
    ScoreNow(Merchant(terms), EMPTY, Retried(), 0, At())
  }

  lemma NothingElseOpen(terms: Terms, t: Tables)
    ensures OtherOpenAmounts(Merchant(terms).world, t, 1, At(), 1) == []
    ensures OtherOpenAmounts(Merchant(terms).world, t, 2, At(), 2) == []
  {
    assert [CartOf(1)][1..] == [] && [Payment()][1..] == [];
    assert OpenAmounts(t, [], 1, At(), 1) == [] && OpenAmounts(t, [], 2, At(), 2) == [];
    assert OpenAmounts(t, [CartOf(1)], 1, At(), 1) == [] && OpenAmounts(t, [Payment()], 2, At(), 2) == [];
  }

  lemma CartIsWorthwhile(terms: Terms, decayFuture: real)
    requires ShippedTerms(terms, decayFuture)
    ensures 0.0 < CartWorth(terms) < 26_000.0
  {
    Asked(1);
    FirstContact(terms, decayFuture);
    NothingElseOpen(terms, EMPTY);
    assert CartWorth(terms) == ExpectedNet(terms, AskedFor(1), 500, 0, []) by {
      hide ExpectedNet, ShippedTerms, AskedFor;
    }
    ScoreOfFirstContact(terms, decayFuture, AskedFor(1), 500, []);
    assert Fatigue.Pow(Fatigue.DECAY, 0) == 1.0;
    hide ShippedTerms, CartWorth, ExpectedNet, AskedFor;
  }

  lemma PaymentIsWorthMore(terms: Terms, decayFuture: real)
    requires ShippedTerms(terms, decayFuture)
    ensures PaymentWorth(terms) > 80_000.0
  {
    RetriedIs();
    FirstContact(terms, decayFuture);
    NothingElseOpen(terms, EMPTY);
    assert PaymentWorth(terms) == ExpectedNet(terms, Retried(), 0, 0, []) by {
      hide ExpectedNet, ShippedTerms, Retried;
    }
    ScoreOfFirstContact(terms, decayFuture, Retried(), 0, []);
    assert Fatigue.Pow(Fatigue.DECAY, 0) == 1.0;
    hide ShippedTerms, PaymentWorth, ExpectedNet, Retried;
  }

  lemma PaymentWorthLater(terms: Terms, t: Tables)
    requires Untouched(t, 2)
    ensures ScoreNow(Merchant(terms), t, Retried(), 0, At()) == PaymentWorth(terms)
  {
    RetriedIs();
    NoContacts(t.grants, 2, At());
    NothingElseOpen(terms, t);
    NothingElseOpen(terms, EMPTY);
    hide OtherOpenAmounts, CountContacted;
  }

  // ---- The two rounds ----

  /** A customer's only candidate, costing nothing, for a slot that issuance refuses. */
  ghost predicate Refused(s: Setup, at: Instant, t: Tables, c: Candidate, reason: ReasonCode) {
    && !s.fifoMode && ScoreNow(s, t, c, c.request.maxIncentiveBps, at) > 0.0
    && FindRequest(t.grants, c.request.requestId).None?
    && Refusal(s.world, t, c.customerId, c.windowId, at) == Some(reason)
    && c.requestedCeilingPaise == 0 && c.windowsDeferred == 0
  }

  lemma AttemptIsRefused(s: Setup, at: Instant, t: Tables, c: Candidate, reason: ReasonCode)
    requires Refused(s, at, t, c, reason)
    ensures var k := AttemptOne(s, at, Contest(t, None, map[]), (ScoreNow(s, t, c, c.request.maxIncentiveBps, at), c));
            k.winner.None? && k.denials == map[c.item.riskId := (reason, NextWindowStart(c.windowId))]
  {
    hide ScoreNow;
  }

  lemma RefusedIsDeferred(s: Setup, at: Instant, t: Tables, outcomes: seq<Outcome>, c: Candidate, reason: ReasonCode)
    requires Refused(s, at, t, c, reason)
    ensures CustomerRound(s, at, t, outcomes, [c]).0
            == outcomes + [DeferredOrDenied(c, reason, NextWindowStart(c.windowId),
                                            Some(ScoreNow(s, t, c, c.request.maxIncentiveBps, at)))]
  {
    var score := ScoreNow(s, t, c, c.request.maxIncentiveBps, at);
    AttemptIsRefused(s, at, t, c, reason);
    hide ScoreNow, AttemptOne, Refusal;
    var a := Admission(t, outcomes, [(score, c)]);
    assert [c][1..] == [] && [(score, c)][1..] == [];
    assert AdmitAll(s, at, Admission(t, outcomes, []), [c]) == a;
    assert Sort([(score, c)], RankOrder(s)) == [(score, c)];
    var k := AttemptOne(s, at, Contest(t, None, map[]), (score, c));
    assert AttemptAll(s, at, Contest(t, None, map[]), [(score, c)]) == k;
    assert outcomes + [] == outcomes;
    assert Losers(k, k.tables, outcomes, [(score, c)]).0 == outcomes + [LossOf(k, (score, c))];
  }

  lemma BudgetsOf(terms: Terms)
    ensures MerchantRemaining(Merchant(terms).world, EMPTY, 0) == CEILING
    ensures CustomerRemaining(Merchant(terms).world, EMPTY, 1, 0) == CEILING
  {
    assert [CartOf(1)][1..] == [];
    assert TotalAmount([CartOf(1)]) == AMOUNT;
  }

  lemma CartIsUnopposed(terms: Terms, decayFuture: real)
    requires ShippedTerms(terms, decayFuture)
    ensures Unopposed(Merchant(terms), At(), EMPTY, AskedFor(1))
  {
    Asked(1);
    CartIsWorthwhile(terms, decayFuture);
    BudgetsOf(terms);
    hide ScoreNow, AskedFor, MerchantRemaining, CustomerRemaining;
  }

  /** The cart leaves nothing of the merchant's pool. */
  lemma PaymentIsRefused(terms: Terms, decayFuture: real)
    requires ShippedTerms(terms, decayFuture)
    ensures AskedFor(1).requestedCeilingPaise >= 0
    ensures var t := AfterGrant(Merchant(terms), At(), EMPTY, AskedFor(1));
            Refused(Merchant(terms), At(), t, Retried(), MerchantMarginExhausted) && Untouched(t, 2)
  {
    hide ShippedTerms, AskedFor, Retried, AfterGrant, TotalAmount;
    Asked(1);
    RetriedIs();
    var t := AfterGrant(Merchant(terms), At(), EMPTY, AskedFor(1));
    AfterGrantFacts(Merchant(terms), At(), EMPTY, AskedFor(1));
    BudgetsOf(terms);
    PaymentIsWorthMore(terms, decayFuture);
    PaymentWorthLater(terms, t);
    assert MerchantRemaining(Merchant(terms).world, t, 0) == 0;
    hide ScoreNow, MerchantRemaining, CustomerRemaining;
  }

  ghost predicate AsPlayed(terms: Terms, outcomes: seq<Outcome>) {
    && |outcomes| == 2
    && outcomes[0].kind.Granted? && outcomes[0].candidate == AskedFor(1) && outcomes[0].effectiveBps == Some(500)
    && outcomes[0].score == Some(CartWorth(terms))
    && outcomes[1].kind.Deferred? && outcomes[1].candidate == Retried()
    && outcomes[1].reason == Some(MerchantMarginExhausted) && outcomes[1].score == Some(PaymentWorth(terms))
  }

  lemma TwoOwners()
    ensures Customers(Candidates()) == [1, 2]
    ensures CandidatesOf(Candidates(), 1) == [AskedFor(1)] && CandidatesOf(Candidates(), 2) == [Retried()]
  {
    Asked(1);
    RetriedIs();
    hide AskedFor, Retried;
    var all := Candidates();
    assert all[1..] == [Retried()] && all[1..][1..] == [];
    assert Customers(all[1..]) == [2];
    assert Of(all[1..], 1) == [] && Of(all[1..], 2) == [Retried()];
    assert Of(all, 1) == [AskedFor(1)] && Of(all, 2) == [Retried()];
  }

  lemma OneThenTheOther(s: Setup, first: Outcome, second: Outcome, t: Tables, t': Tables)
    requires CustomerRound(s, At(), EMPTY, [], [AskedFor(1)]) == ([first], t)
    requires CustomerRound(s, At(), t, [first], [Retried()]) == ([first, second], t')
    ensures AllocateWindow(s, At(), EMPTY, Candidates()) == ([first, second], t')
  {
    TwoOwners();
    hide CustomerRound, AskedFor, Retried, Customers, CandidatesOf, Candidates;
    var all := Candidates();
    assert [1, 2][1..] == [2] && [2][1..] == [];
    assert AllocateFor(s, At(), t', [first, second], all, []) == ([first, second], t');
    assert AllocateFor(s, At(), t, [first], all, [2]) == ([first, second], t');
  }

  lemma AllocatedAsPlayed(terms: Terms, decayFuture: real)
    requires ShippedTerms(terms, decayFuture)
    ensures AsPlayed(terms, AllocateWindow(Merchant(terms), At(), EMPTY, Candidates()).0)
  {
    hide Unopposed, Refused, CustomerRound, AfterGrant, AskedFor, Retried, Merchant, ShippedTerms, ScoreNow,
         AllocateWindow, Candidates;
    var s := Merchant(terms);
    CartIsUnopposed(terms, decayFuture);
    PaymentIsRefused(terms, decayFuture);
    var t := AfterGrant(s, At(), EMPTY, AskedFor(1));
    Asked(1);
    RetriedIs();
    PaymentWorthLater(terms, t);
    var first := GrantOf(FullGrant(s, At(), EMPTY, AskedFor(1)));
    var second := DeferredOrDenied(Retried(), MerchantMarginExhausted, NextWindowStart(0), Some(PaymentWorth(terms)));
    UnopposedIsGranted(s, At(), EMPTY, [], AskedFor(1));
    RefusedIsDeferred(s, At(), t, [first], Retried(), MerchantMarginExhausted);
    assert [] + [first] == [first] && [first] + [second] == [first, second];
    OneThenTheOther(s, first, second, t, CustomerRound(s, At(), t, [first], [Retried()]).1);
  }

  // ---- The window of the run ----

  lemma NobodyObjects(terms: Terms)
    ensures forall c :: c in Candidates() ==> EvaluateAll(Merchant(terms).world, map[], EMPTY, c, At()).Admissible?
    ensures DistinctRisks(Candidates())
  {
    WindowOfStart(0);
    Asked(1);
    RetriedIs();
    hide AskedFor, Retried;
    assert multiset(Candidates()) == multiset{AskedFor(1), Retried()};
  }

  lemma ActionsForToday()
    ensures Sorted(Actions(), ActionLe) && AskedAboutOwned(Actions(), Items())
    ensures forall a :: a in Actions() ==> ArrivalWindow(a) == 0
    ensures CandidatesFrom(Actions(), Items()) == Candidates()
  {
    WindowOfStart(0);
    var all := Actions();
    assert all[..1] == [all[0]] && all[..1][..0] == [];
    assert CandidatesFrom(all[..1], Items()) == [AskedFor(1)];
  }

  lemma RunPlaysSo(cfg: RunSetup, terms: Terms, decayFuture: real)
    requires ShippedTerms(terms, decayFuture) && Runs(cfg, Merchant(terms), Items(), Actions())
    ensures TakeIn(cfg, NewActions(Actions(), 0)) == Ok(Intake([], Candidates()))
    ensures AsPlayed(terms, MediateWindow(cfg, Initial(), 0, Intake([], Candidates())).0)
  {
    ActionsForToday();
    NobodyObjects(terms);
    hide FilterAndAllocate, Merchant, Actions, Items, Candidates, EvaluateAll, AllocateWindow;
    TakenInOnTheDay(cfg, Merchant(terms), Items(), Actions(), 0);
    AllocationAlone(Merchant(terms), map[], At(), EMPTY, Candidates());
    AllocatedAsPlayed(terms, decayFuture);
    assert [] + Candidates() == Candidates();
  }

  // ---- What the program reports of it ----

  ghost function GrantAndLoss(v: real, more: real): seq<Entry> {
    [Entry(1, Item(v, CEILING), true), Entry(2, Item(more, 0), false)]
  }

  lemma BothRecorded(terms: Terms, decayFuture: real, outcomes: seq<Outcome>)
    requires ShippedTerms(terms, decayFuture) && AsPlayed(terms, outcomes)
    ensures Entries(outcomes) == GrantAndLoss(CartWorth(terms), PaymentWorth(terms))
  {
    CartIsWorthwhile(terms, decayFuture);
    PaymentIsWorthMore(terms, decayFuture);
    Asked(1);
    RetriedIs();
    hide AskedFor, Retried, CartWorth, PaymentWorth;
    assert outcomes[..1] == [outcomes[0]] && outcomes[..1][..0] == [];
    assert EntryOf(outcomes[0]) == [Entry(1, Item(CartWorth(terms), CEILING), true)];
    assert EntryOf(outcomes[1]) == [Entry(2, Item(PaymentWorth(terms), 0), false)];
    hide EntryOf;
    assert Entries(outcomes[..1]) == [Entry(1, Item(CartWorth(terms), CEILING), true)];
  }

  lemma GroupsOfBoth(v: real, more: real)
    ensures SnapshotGroups(GrantAndLoss(v, more)) == [[Item(v, CEILING)], [Item(more, 0)]]
    ensures Achieved(GrantAndLoss(v, more)) == v
  {
    var entries := GrantAndLoss(v, more);
    ItemsOfTwo(entries[0], entries[1], 1);
    ItemsOfTwo(entries[0], entries[1], 2);
    CustomersOfTwo(entries[0], entries[1]);
    assert entries == [entries[0], entries[1]];
    assert ItemsOf(entries, 1) == [entries[0].item] && ItemsOf(entries, 2) == [entries[1].item];
    assert entries[..1] == [entries[0]] && entries[..1][..0] == [];
    assert Achieved(entries[..1]) == v;
    hide ItemsOf, CustomersOf, FirstSeen;
    assert GroupsFor(entries, []) == [];
    assert [1, 2][..1] == [1] && [1][..0] == [];
    assert GroupsFor(entries, [1]) == [[entries[0].item]];
  }

  /** Both together fit the pool. */
  lemma BothFit(v: real, more: real, optimal: real)
    requires IsOptimum(SnapshotGroups(GrantAndLoss(v, more)), CEILING, 1, optimal)
    ensures optimal >= v + more
  {
    GroupsOfBoth(v, more);
    hide SnapshotGroups;
    var groups, choice: Choice := SnapshotGroups(GrantAndLoss(v, more)), [Some(0), Some(0)];
    assert CeilDiv(CEILING, 1) == CEILING && CeilDiv(0, 1) == 0;
    hide CeilDiv;
    assert groups[..1] == [groups[0]] && groups[..1][..0] == [];
    assert choice[..1] == [Some(0)] && choice[..1][..0] == [];
    assert TotalUnits(groups[..1][..0], choice[..1][..0], 1) == 0
           && TotalValue(groups[..1][..0], choice[..1][..0]) == 0.0;
    assert TotalUnits(groups[..1], choice[..1], 1) == CEILING && TotalValue(groups[..1], choice[..1]) == v;
    assert TotalUnits(groups, choice, 1) == CEILING && TotalValue(groups, choice) == v + more;
    assert Counted(groups, choice, CEILING, 1);
  }

  /**
   * The first window of a run of the program's agents over the cart and the payment: the cart is
   * granted, the payment refused.  To the paisa, the optimum is more than four times what was achieved.
   */
  method AllocatorMissesThePayment(cfg: RunSetup, ghost terms: Terms, ghost decayFuture: real)
    returns (outcomes: seq<Outcome>, achieved: real, optimal: real)
    requires ShippedTerms(terms, decayFuture) && Runs(cfg, Merchant(terms), Items(), Actions())
    ensures TakeIn(cfg, NewActions(Actions(), 0)).Ok?
    ensures outcomes == MediateWindow(cfg, Initial(), 0, TakeIn(cfg, NewActions(Actions(), 0)).value).0
    ensures AsPlayed(terms, outcomes)
    ensures 0.0 < achieved && optimal > 4.0 * achieved
  {
    RunPlaysSo(cfg, terms, decayFuture);
    CartIsWorthwhile(terms, decayFuture);
    PaymentIsWorthMore(terms, decayFuture);
    ghost var v, more := CartWorth(terms), PaymentWorth(terms);
    GroupsOfBoth(v, more);
    hide MediateWindow, TakeIn, Actions, Candidates, ShippedTerms, CartWorth, PaymentWorth;
    outcomes := MediateWindow(cfg, Initial(), 0, TakeIn(cfg, NewActions(Actions(), 0)).value).0;
    BothRecorded(terms, decayFuture, outcomes);
    achieved, optimal := ComputeWindowGap(outcomes, CEILING, 1);
    BothFit(v, more, optimal);
  }
}
