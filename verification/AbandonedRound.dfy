/**
 * A round in which the highest priority does not get the slot, with the program's frozen constants
 * and as its agents ask for it.
 *
 * A customer has an abandoned cart and two failed payments, one of them small.  The cart is admitted
 * at a barely positive score; the small payment is then denied.  The merchant's pool is one paisa
 * short of the cart's ceiling, so its offer is scored again, now without the small payment: the
 * fatigue cost has risen, the offer is abandoned, and the other payment gets the slot.
 */
module AbandonedRound {
  import opened Allocator
  import opened AllocatorProperties
  import opened AllocatorSelection
  import opened Clock
  import opened Contracts
  import Fatigue
  import opened HardFilter
  import opened Ledger
  import opened Margin
  import opened MediationOutcomes
  import opened Scopes = Registry
  import opened Shipped
  import opened Sorting
  import opened WindowLoop
  import opened WindowSelection
  import opened Wrappers

  function At(): Instant {
    WindowStartFor(0)
  }

  function Customer(): CustomerId {
    7
  }

  /** Detected at midnight, so that every request of the morning is due at 09:00. */
  function ItemOf(riskId: RiskId, source: string, amount: Positive): RiskItem {
    RiskItem(riskId, source, amount, UNKNOWN, At() - 9 * HOUR)
  }

  function Cart(): RiskItem {
    ItemOf(1, CART, 211_000)
  }

  function Payment(): RiskItem {
    ItemOf(2, PAYMENT, 200_000)
  }

  function SmallPayment(): RiskItem {
    ItemOf(3, PAYMENT, 10_000)
  }

  /** What the agents ask for. */
  function Scheduled(): seq<Action> {
    [CartRecovery(Cart(), Customer()), PaymentRetry(Payment(), Customer()), PaymentRetry(SmallPayment(), Customer())]
  }

  function Owned(): RiskItems {
    map[1 := (Cart(), Customer()), 2 := (Payment(), Customer()), 3 := (SmallPayment(), Customer())]
  }

  function First(): Candidate {
    CandidateFrom(CartRecovery(Cart(), Customer()), Cart())
  }

  function Second(): Candidate {
    CandidateFrom(PaymentRetry(Payment(), Customer()), Payment())
  }

  function Third(): Candidate {
    CandidateFrom(PaymentRetry(SmallPayment(), Customer()), SmallPayment())
  }

  function Presented(): seq<Candidate> {
    [First(), Second(), Third()]
  }

  /** The merchant's pool holds one paisa less than the first candidate asks for. */
  function SetupOf(terms: Terms): Setup {
    Setup(World(map[Customer() := [Cart(), Payment(), SmallPayment()]], First().requestedCeilingPaise - 1),
          HeuristicScorer(terms), AGING_BONUS_PAISE, false)
  }

  // ---- What is open, and what it makes a contact cost ----

  ghost predicate NothingResolved(t: Tables) {
    t.(deniedRiskIds := {}) == EMPTY
  }

  lemma OpenItems(terms: Terms, t: Tables, c: Candidate)
    requires NothingResolved(t) && c.customerId == Customer()
    ensures OtherOpenAmounts(SetupOf(terms).world, t, Customer(), At(), c.item.riskId)
            == (if c.item.riskId != 1 && 1 !in t.deniedRiskIds then [211_000] else [])
               + ((if c.item.riskId != 2 && 2 !in t.deniedRiskIds then [200_000] else [])
                  + (if c.item.riskId != 3 && 3 !in t.deniedRiskIds then [10_000] else []))
  {
    var items := [First().item, Second().item, Third().item];
    assert items[1..] == [Second().item, Third().item] && items[1..][1..] == [Third().item]
           && items[1..][1..][1..] == [];
    assert OpenAmounts(t, items[1..][1..][1..], Customer(), At(), c.item.riskId) == [];
    assert forall item: RiskItem :: !ResolvedByGrant(t, Customer(), item.riskId);
    assert OpenAmounts(t, items[1..][1..], Customer(), At(), c.item.riskId)
           == if c.item.riskId != 3 && 3 !in t.deniedRiskIds then [10_000] else [];
    assert OpenAmounts(t, items[1..], Customer(), At(), c.item.riskId)
           == (if c.item.riskId != 2 && 2 !in t.deniedRiskIds then [200_000] else [])
              + (if c.item.riskId != 3 && 3 !in t.deniedRiskIds then [10_000] else []);
  }

  lemma CostOfOne(decayFuture: real, x: int)
    ensures Fatigue.FatigueCost(Fatigue.Shipped(decayFuture), 0, [x])
            == Fatigue.P_BASE_MEAN * (1.0 - Fatigue.DECAY * decayFuture) * ((x as real + 1_577_831.8149) / 5.0707)
  {
    assert Fatigue.Pow(Fatigue.DECAY, 1) == Fatigue.DECAY;
    assert Fatigue.Total([x]) == x;
  }

  lemma CostOfTwo(decayFuture: real, x: int, y: int)
    ensures Fatigue.FatigueCost(Fatigue.Shipped(decayFuture), 0, [x, y])
            == Fatigue.P_BASE_MEAN * (1.0 - Fatigue.DECAY * Fatigue.DECAY * decayFuture)
               * (((x + y) as real + 1_577_831.8149) / 6.0707)
  {
    assert Fatigue.Pow(Fatigue.DECAY, 2) == Fatigue.Pow(Fatigue.DECAY, 1) * Fatigue.DECAY
           == Fatigue.DECAY * Fatigue.DECAY;
    assert [x, y][1..] == [y] && [y][1..] == [] && Fatigue.Total([y]) == y;
    assert Fatigue.Total([x, y]) == x + y;
  }

  // ---- Scores ----

  lemma ScoreWith(terms: Terms, decayFuture: real, t: Tables, c: Candidate, bps: int, open: seq<int>)
    requires ShippedTerms(terms, decayFuture) && NothingResolved(t) && c.customerId == Customer()
    requires OtherOpenAmounts(SetupOf(terms).world, t, Customer(), At(), c.item.riskId) == open
    ensures ScoreNow(SetupOf(terms), t, c, bps, At()) == FirstScore(terms, decayFuture, c, bps, open)
  {
    assert ScoreNow(SetupOf(terms), t, c, bps, At()) == ExpectedNet(terms, c, bps, 0, open) by {
      hide ExpectedNet, ShippedTerms;
    }
    hide ScoreNow, SetupOf, OtherOpenAmounts;
    ScoreOfFirstContact(terms, decayFuture, c, bps, open);
    hide ExpectedNet, FirstScore;
  }

  lemma FirstIsAdmitted(terms: Terms, decayFuture: real, t: Tables)
    requires ShippedTerms(terms, decayFuture) && NothingResolved(t) && t.deniedRiskIds == {}
    ensures 2_300.0 < ScoreNow(SetupOf(terms), t, First(), 500, At())
  {
    FirstContact(terms, decayFuture);
    OpenItems(terms, t, First());
    ScoreWith(terms, decayFuture, t, First(), 500, [200_000, 10_000]);
    CostOfTwo(decayFuture, 200_000, 10_000);
    hide ShippedTerms, ScoreNow, OtherOpenAmounts, SetupOf, NothingResolved;
  }

  lemma SecondIsAdmitted(terms: Terms, decayFuture: real, t: Tables)
    requires ShippedTerms(terms, decayFuture) && NothingResolved(t) && t.deniedRiskIds == {}
    ensures 1_200.0 < ScoreNow(SetupOf(terms), t, Second(), 0, At()) < 1_400.0
  {
    FirstContact(terms, decayFuture);
    OpenItems(terms, t, Second());
    ScoreWith(terms, decayFuture, t, Second(), 0, [211_000, 10_000]);
    CostOfTwo(decayFuture, 211_000, 10_000);
    hide ShippedTerms, ScoreNow, OtherOpenAmounts, SetupOf, NothingResolved;
  }

  lemma ThirdIsDenied(terms: Terms, decayFuture: real, t: Tables)
    requires ShippedTerms(terms, decayFuture) && NothingResolved(t) && t.deniedRiskIds == {}
    ensures ScoreNow(SetupOf(terms), t, Third(), 0, At()) < 0.0
  {
    FirstContact(terms, decayFuture);
    OpenItems(terms, t, Third());
    ScoreWith(terms, decayFuture, t, Third(), 0, [211_000, 200_000]);
    CostOfTwo(decayFuture, 211_000, 200_000);
    hide ShippedTerms, ScoreNow, OtherOpenAmounts, SetupOf, NothingResolved;
  }

  /** Once the small item is denied the first candidate is worth nothing at the downgraded rate. */
  lemma DowngradeIsWorthless(terms: Terms, decayFuture: real, t: Tables)
    requires ShippedTerms(terms, decayFuture) && NothingResolved(t) && t.deniedRiskIds == {3}
    ensures ScoreNow(SetupOf(terms), t, First(), 499, At()) < 0.0
  {
    FirstContact(terms, decayFuture);
    OpenItems(terms, t, First());
    ScoreWith(terms, decayFuture, t, First(), 499, [200_000]);
    CostOfOne(decayFuture, 200_000);
    hide ShippedTerms, ScoreNow, OtherOpenAmounts, SetupOf, NothingResolved;
  }

  // ---- The round ----

  lemma AdmitThree(s: Setup, a: Candidate, b: Candidate, c: Candidate, x: real, y: real)
    requires !s.fifoMode && x > 0.0 && y > 0.0 && ScoreNow(s, EMPTY, c, c.request.maxIncentiveBps, At()) < 0.0
    requires x == ScoreNow(s, EMPTY, a, a.request.maxIncentiveBps, At())
             && y == ScoreNow(s, EMPTY, b, b.request.maxIncentiveBps, At())
    ensures var r := AdmitAll(s, At(), Admission(EMPTY, [], []), [a, b, c]);
            r.tables == MarkDenied(EMPTY, c.item.riskId) && r.admitted == [(x, a), (y, b)]
  {
    hide ScoreNow;
    var start, all := Admission(EMPTY, [], []), [a, b, c];
    var a1, a2 := start.(admitted := [(x, a)]), start.(admitted := [(x, a), (y, b)]);
    assert AdmitOne(s, At(), start, a) == a1 && AdmitOne(s, At(), a1, b) == a2;
    var a3 := AdmitOne(s, At(), a2, c);
    assert all[1..] == [b, c] && all[1..][1..] == [c] && all[1..][1..][1..] == [];
    assert AdmitAll(s, At(), a2, [c]) == a3;
    assert AdmitAll(s, At(), a1, [b, c]) == a3;
  }

  lemma RoundAdmission(terms: Terms, decayFuture: real) returns (first: real, second: real)
    requires ShippedTerms(terms, decayFuture)
    ensures var a := AdmitAll(SetupOf(terms), At(), Admission(EMPTY, [], []), Presented());
            && a.tables == MarkDenied(EMPTY, 3) && a.admitted == [(first, First()), (second, Second())]
            && first > second + 1_000.0 && second > 0.0
  {
    var s := SetupOf(terms);
    FirstIsAdmitted(terms, decayFuture, EMPTY);
    SecondIsAdmitted(terms, decayFuture, EMPTY);
    ThirdIsDenied(terms, decayFuture, EMPTY);
    first, second := ScoreNow(s, EMPTY, First(), 500, At()), ScoreNow(s, EMPTY, Second(), 0, At());
    hide ScoreNow, ShippedTerms;
    AdmitThree(s, First(), Second(), Third(), first, second);
  }

  lemma FirstRanksFirst(terms: Terms, first: real, second: real)
    requires first > second
    ensures Sort([(first, First()), (second, Second())], RankOrder(SetupOf(terms)))
            == [(first, First()), (second, Second())]
  {
    var s := [(first, First()), (second, Second())];
    RankOrderOf(terms);
    assert Sorted(s, RankOrder(SetupOf(terms)));
    SortedIsFixed(s, RankOrder(SetupOf(terms)));
  }

  lemma RankOrderOf(terms: Terms)
    ensures TotalPreorder(RankOrder(SetupOf(terms)))
  {
    RankingIsSorted(SetupOf(terms), []);
  }

  lemma PoolsOfTheRound(terms: Terms)
    ensures var t, world := MarkDenied(EMPTY, 3), SetupOf(terms).world;
            MerchantRemaining(world, t, 0) == 10_549 && CustomerRemaining(world, t, Customer(), 0) == 21_050
    ensures Refusal(SetupOf(terms).world, EMPTY, Customer(), 0, At()).None?
  {
    var items := [First().item, Second().item, Third().item];
    assert items[1..] == [Second().item, Third().item] && items[1..][1..] == [Third().item]
           && items[1..][1..][1..] == [];
    assert TotalAmount(items[1..][1..][1..]) == 0 && TotalAmount(items[1..][1..]) == 10_000
           && TotalAmount(items[1..]) == 210_000;
    assert TotalAmount(items) == 421_000;
  }

  lemma FirstIsAbandoned(terms: Terms, decayFuture: real, first: real, second: real)
    requires ShippedTerms(terms, decayFuture)
    ensures !Viable(SetupOf(terms), At(), MarkDenied(EMPTY, 3), (first, First()))
    ensures Viable(SetupOf(terms), At(), MarkDenied(EMPTY, 3), (second, Second()))
  {
    PoolsOfTheRound(terms);
    DowngradeIsWorthless(terms, decayFuture, MarkDenied(EMPTY, 3));
    assert EffectiveBps(10_549, 211_000) == 499;
  }

  lemma PresentedShareASlot()
    ensures OneSlot(EMPTY, Presented(), Customer(), 0)
    ensures forall c :: c in Presented() ==> WellPriced(c) && ValidCandidate(c)
  {
  }

  /**
   * The first-ranked candidate does not get a slot that nobody refuses: its offer is abandoned, and
   * the second, of lower priority, wins.
   */
  lemma HighestPriorityLoses(terms: Terms, decayFuture: real)
    requires ShippedTerms(terms, decayFuture)
    ensures OneSlot(EMPTY, Presented(), Customer(), 0)
    ensures Refusal(SetupOf(terms).world, EMPTY, Customer(), 0, At()).None?
    ensures var (ranked, k) := RoundContest(SetupOf(terms), At(), EMPTY, Presented());
            && |ranked| == 2 && ranked[0].1 == First() && ranked[0].0 > ranked[1].0 + 1_000.0
            && Won(k, Second()) && !Won(k, First())
  {
    PresentedShareASlot();
    PoolsOfTheRound(terms);
    var first, second := RoundAdmission(terms, decayFuture);
    FirstRanksFirst(terms, first, second);
    FirstIsAbandoned(terms, decayFuture, first, second);
    HighestPriorityOrNobody(SetupOf(terms), At(), EMPTY, Presented(), Customer(), 0);
    SecondIsFirstViable(terms, first, second);
  }

  lemma SecondIsFirstViable(terms: Terms, first: real, second: real)
    requires !Viable(SetupOf(terms), At(), MarkDenied(EMPTY, 3), (first, First()))
    requires Viable(SetupOf(terms), At(), MarkDenied(EMPTY, 3), (second, Second()))
    ensures FirstViable(SetupOf(terms), At(), MarkDenied(EMPTY, 3), [(first, First()), (second, Second())]) == 1
  {
    hide Viable;
    assert [(first, First()), (second, Second())][1..] == [(second, Second())];
  }

  // ---- The window ----

  lemma OneCustomer()
    ensures Customers(Presented()) == [Customer()] && CandidatesOf(Presented(), Customer()) == Presented()
  {
    var all := Presented();
    assert First().customerId == 7 && Second().customerId == 7 && Third().customerId == 7;
    assert First().item.riskId == 1 && Second().item.riskId == 2 && Third().item.riskId == 3;
    hide First, Second, Third;
    assert all[1..] == [Second(), Third()] && all[1..][1..] == [Third()] && all[1..][1..][1..] == [];
    assert Customers(all[1..][1..]) == [Customer()] && Of(all[1..][1..], Customer()) == [Third()];
    assert Customers(all[1..]) == [Customer()] && Of(all[1..], Customer()) == [Second(), Third()];
    assert Of(all, Customer()) == all;
    SortedIsFixed(all, RiskLe);
  }

  /** No hard rule objects to any of them. */
  lemma PresentedAreAdmissible(terms: Terms)
    ensures forall c :: c in Presented() ==> EvaluateAll(SetupOf(terms).world, map[], EMPTY, c, At()).Admissible?
  {
    WindowOfStart(0);
  }

  lemma PresentedAreDistinct()
    ensures DistinctRisks(Presented()) && NewInWindow(EMPTY, Presented(), 0)
  {
    WindowOfStart(0);
    assert First().item.riskId == 1 && Second().item.riskId == 2 && Third().item.riskId == 3;
    assert First().request.requestId == 1 && Second().request.requestId == 2 && Third().request.requestId == 3;
    assert First().windowId == 0 && Second().windowId == 0 && Third().windowId == 0;
    hide First, Second, Third;
    assert multiset(Presented()) == multiset{First(), Second(), Third()};
  }

  /** Allocation by itself: the second candidate is granted, the first is not. */
  lemma AllocationGrantsTheSecond(terms: Terms, decayFuture: real)
    requires ShippedTerms(terms, decayFuture)
    ensures var outcomes := AllocateWindow(SetupOf(terms), At(), EMPTY, Presented()).0;
            IsGranted(outcomes, Second()) && !IsGranted(outcomes, First())
  {
    OneCustomer();
    HighestPriorityLoses(terms, decayFuture);
    hide AllocateWindow, RoundContest, SetupOf, Refusal, OneSlot;
    GrantedIfWon(SetupOf(terms), At(), EMPTY, [], Presented(), [Customer()], First());
    GrantedIfWon(SetupOf(terms), At(), EMPTY, [], Presented(), [Customer()], Second());
    AllocateOne(SetupOf(terms));
  }

  lemma AllocateOne(s: Setup)
    ensures AllocateWindow(s, At(), EMPTY, Presented()) == AllocateFor(s, At(), EMPTY, [], Presented(), [Customer()])
  {
    OneCustomer();
  }

  /** The whole mediated window, hard rules first: the second candidate is granted, the first is not. */
  lemma WindowGrantsTheSecond(terms: Terms, decayFuture: real)
    requires ShippedTerms(terms, decayFuture)
    ensures var outcomes := FilterAndAllocate(SetupOf(terms), map[], At(), EMPTY, Presented()).0;
            IsGranted(outcomes, Second()) && !IsGranted(outcomes, First())
  {
    PresentedAreAdmissible(terms);
    PresentedAreDistinct();
    hide AllocateWindow, SetupOf, EvaluateAll, FilterAndAllocate, Presented;
    AllocationAlone(SetupOf(terms), map[], At(), EMPTY, Presented());
    AllocationGrantsTheSecond(terms, decayFuture);
  }

  lemma ScheduledForToday()
    ensures Sorted(Scheduled(), ActionLe) && AskedAboutOwned(Scheduled(), Owned())
    ensures forall a :: a in Scheduled() ==> ArrivalWindow(a) == 0
    ensures CandidatesFrom(Scheduled(), Owned()) == Presented()
  {
    WindowOfStart(0);
    var all := Scheduled();
    assert all[..2] == [all[0], all[1]] && all[..2][..1] == [all[0]] && all[..2][..1][..0] == [];
    assert CandidatesFrom(all[..2][..1], Owned()) == [First()];
    assert CandidatesFrom(all[..2], Owned()) == [First(), Second()];
  }

  /** And this is what the program's agents present: the first window of such a run. */
  lemma RunGrantsTheSecond(cfg: RunSetup, terms: Terms, decayFuture: real)
    requires ShippedTerms(terms, decayFuture) && Runs(cfg, SetupOf(terms), Owned(), Scheduled())
    ensures TakeIn(cfg, NewActions(Scheduled(), 0)) == Ok(Intake([], Presented()))
    ensures var outcomes := MediateWindow(cfg, Initial(), 0, Intake([], Presented())).0;
            IsGranted(outcomes, Second()) && !IsGranted(outcomes, First())
  {
    ScheduledForToday();
    hide FilterAndAllocate, SetupOf, Scheduled, Owned, Presented;
    TakenInOnTheDay(cfg, SetupOf(terms), Owned(), Scheduled(), 0);
    WindowGrantsTheSecond(terms, decayFuture);
    assert [] + Presented() == Presented();
  }

  /** So with the program's own terms a score can prefer more open items. */
  lemma ShippedScorerPrefersMoreOpen(terms: Terms, decayFuture: real)
    requires ShippedTerms(terms, decayFuture)
    ensures !FewerOpenNeverHurts(HeuristicScorer(terms))
  {
    Fatigue.SmallItemLowersTheCost(decayFuture);
    HeuristicFewerOpenNeverHurts(terms);
    assert Subsequence([], [10_000]);
    assert terms.fatigueCost(0, []) > terms.fatigueCost(0, [10_000]);
  }
}
