/**
 * The allocator as the program runs it (sampark/allocator/greedy.py): loops over a ledger object
 * that is read and written between one candidate and the next.
 */
module GreedyAllocator {
  import opened Allocator
  import opened AllocatorProperties
  import AllocatorSelection
  import opened Clock
  import opened Contracts
  import opened Margin
  import opened Sorting
  import opened Store
  import opened Wrappers

  lemma {:induction false} OfAppend(cands: seq<Candidate>, c: Candidate, customer: CustomerId)
    ensures Of(cands + [c], customer) == Of(cands, customer) + (if c.customerId == customer then [c] else [])
  {
    if cands == [] {
      assert [c][1..] == [];
    } else {
      var rest, own := cands[1..], if cands[0].customerId == customer then [cands[0]] else [];
      OfAppend(rest, c, customer);
      assert (cands + [c])[1..] == rest + [c] && (cands + [c])[0] == cands[0];
      var last := if c.customerId == customer then [c] else [];
      assert own + (Of(rest, customer) + last) == (own + Of(rest, customer)) + last;
    }
  }

  lemma CustomersAreThoseWithCandidates(cands: seq<Candidate>, k: CustomerId)
    ensures k in Customers(cands) <==> Of(cands, k) != []
  {
    CustomersFacts(cands);
    OfMembers(cands, k);
    if Of(cands, k) != [] {
      assert Of(cands, k)[0] in Of(cands, k);
    }
  }

  method GroupByCustomer(cands: seq<Candidate>) returns (groups: map<CustomerId, seq<Candidate>>)
    ensures forall k :: k in groups <==> k in Customers(cands)
    ensures forall k :: k in groups ==> groups[k] == Of(cands, k)
  {
    groups := map[];
    var i := 0;
    while i < |cands|
      invariant 0 <= i <= |cands|
      invariant forall k :: (if k in groups then groups[k] else []) == Of(cands[..i], k)
      invariant forall k :: k in groups ==> groups[k] != []
    {
      var c := cands[i];
      assert cands[..i + 1] == cands[..i] + [c];
      forall k ensures Of(cands[..i + 1], k) == Of(cands[..i], k) + (if c.customerId == k then [c] else []) {
        OfAppend(cands[..i], c, k);
      }
      groups := groups[c.customerId := (if c.customerId in groups then groups[c.customerId] else []) + [c]];
      i := i + 1;
    }
    assert cands[..i] == cands;
    forall k ensures k in groups <==> k in Customers(cands) {
      CustomersAreThoseWithCandidates(cands, k);
    }
  }

  method ScoreNow(s: Setup, ledger: InMemoryMediationLedger, c: Candidate, bps: int, at: Instant) returns (score: real)
    requires s.world == ledger.world
    ensures score == Allocator.ScoreNow(s, ledger.View(), c, bps, at)
  {
    var n := ledger.ContactsMade(c.customerId, at);
    var open := ledger.OtherOpenAmounts(c.customerId, at, c.item.riskId);
    score := s.scorer(c, bps, n, open);
  }

  /** Scores a customer's candidates; those not worth a contact are denied on the spot. */
  method AdmitAll(s: Setup, ledger: InMemoryMediationLedger, at: Instant, earlier: seq<Outcome>, cands: seq<Candidate>)
    returns (outcomes: seq<Outcome>, admitted: seq<Scored>)
    requires s.world == ledger.world
    modifies ledger
    ensures Admission(ledger.View(), outcomes, admitted)
            == Allocator.AdmitAll(s, at, Admission(old(ledger.View()), earlier, []), cands)
  {
    outcomes, admitted := earlier, [];
    var i := 0;
    assert cands[0..] == cands;
    while i < |cands|
      invariant 0 <= i <= |cands|
      invariant Allocator.AdmitAll(s, at, Admission(ledger.View(), outcomes, admitted), cands[i..])
                == Allocator.AdmitAll(s, at, Admission(old(ledger.View()), earlier, []), cands)
    {
      var c := cands[i];
      assert cands[i..][0] == c && cands[i..][1..] == cands[i + 1..];
      var score := ScoreNow(s, ledger, c, c.request.maxIncentiveBps, at);
      if score <= 0.0 && !s.fifoMode {
        ledger.MarkTerminallyDenied(c.item.riskId);
        outcomes := outcomes + [DenialOf(c, NegativeExpectedNet, Some(score))];
      } else {
        admitted := admitted + [(score, c)];
      }
      i := i + 1;
    }
  }

  /** One attempt at the slot, on the request's terms or downgraded to what both pools cover. */
  method Attempt(s: Setup, ledger: InMemoryMediationLedger, at: Instant, scored: Scored)
    returns (winner: Option<Winner>, denial: (ReasonCode, Instant))
    requires s.world == ledger.world
    modifies ledger
    ensures forall denials :: Contest(ledger.View(), winner,
                                      if winner.Some? then denials else denials[scored.1.item.riskId := denial])
                              == AttemptOne(s, at, Contest(old(ledger.View()), None, denials), scored)
  {
    var c := scored.1;
    denial := (LostToHigherExpectedNet, NextWindowStart(c.windowId));
    var merchantRemaining, customerRemaining := ledger.RemainingMarginPaise(c.customerId, c.windowId);
    var downgraded := DowngradeToFit(c.requestedCeilingPaise, merchantRemaining, customerRemaining);
    var bps, score := c.request.maxIncentiveBps as int, scored.0;
    if downgraded < c.requestedCeilingPaise {
      bps := EffectiveBps(downgraded, c.item.amountPaise);
      score := ScoreNow(s, ledger, c, bps, at);
      if score <= 0.0 {
        var reason := if merchantRemaining <= customerRemaining then MerchantMarginExhausted
            else CustomerMarginExhausted;
        return None, (reason, NextWindowStart(c.windowId));
      }
    }
    var result := ledger.IssueGrant(c, bps, at);
    match result {
      case GrantIssued(grant) => winner := Some(Winner(c, grant, bps, score));
      case BudgetDenial(reason, next) => winner, denial := None, (reason, next);
    }
  }

  /** Offers the slot in rank order until somebody takes it. */
  method ContestSlot(s: Setup, ledger: InMemoryMediationLedger, at: Instant, ranked: seq<Scored>)
    returns (winner: Option<Winner>, denials: map<RiskId, (ReasonCode, Instant)>)
    requires s.world == ledger.world
    modifies ledger
    ensures Contest(ledger.View(), winner, denials)
            == AttemptAll(s, at, Contest(old(ledger.View()), None, map[]), ranked)
  {
    winner, denials := None, map[];
    var i := 0;
    assert ranked[0..] == ranked;
    while i < |ranked| && winner.None?
      invariant 0 <= i <= |ranked|
      invariant AttemptAll(s, at, Contest(ledger.View(), winner, denials), ranked[i..])
                == AttemptAll(s, at, Contest(old(ledger.View()), None, map[]), ranked)
    {
      assert ranked[i..][0] == ranked[i] && ranked[i..][1..] == ranked[i + 1..];
      ghost var before := ledger.View();
      var taken, denial := Attempt(s, ledger, at, ranked[i]);
      assert Contest(ledger.View(), taken, if taken.Some? then denials else denials[ranked[i].1.item.riskId := denial])
             == AttemptOne(s, at, Contest(before, None, denials), ranked[i]);
      if taken.None? {
        denials := denials[ranked[i].1.item.riskId := denial];
      }
      winner := taken;
      i := i + 1;
    }
    if winner.Some? {
      AllocatorSelection.AttemptsStopAtWinner(s, at, Contest(ledger.View(), winner, denials), ranked[i..]);
    }
  }

  /** Defers, or finally denies, everyone who did not get the slot. */
  method SettleLosers(ledger: InMemoryMediationLedger, k: Contest, earlier: seq<Outcome>, ranked: seq<Scored>)
    returns (outcomes: seq<Outcome>)
    modifies ledger
    ensures (outcomes, ledger.View()) == Losers(k, old(ledger.View()), earlier, ranked)
  {
    outcomes := earlier;
    var i := 0;
    assert ranked[0..] == ranked;
    while i < |ranked|
      invariant 0 <= i <= |ranked|
      invariant Losers(k, ledger.View(), outcomes, ranked[i..]) == Losers(k, old(ledger.View()), earlier, ranked)
    {
      var c := ranked[i].1;
      assert ranked[i..][0] == ranked[i] && ranked[i..][1..] == ranked[i + 1..];
      if !(k.winner.Some? && c.item.riskId == k.winner.value.candidate.item.riskId) {
        outcomes := outcomes + [LossOf(k, ranked[i])];
        if c.windowsDeferred + 1 >= MAX_DEFERRAL_WINDOWS {
          ledger.MarkTerminallyDenied(c.item.riskId);
        }
      }
      i := i + 1;
    }
  }

  /** The whole window: one round per customer, in customer order. */
  method AllocateWindow(s: Setup, ledger: InMemoryMediationLedger, at: Instant, cands: seq<Candidate>)
    returns (outcomes: seq<Outcome>)
    requires s.world == ledger.world
    modifies ledger
    ensures (outcomes, ledger.View()) == Allocator.AllocateWindow(s, at, old(ledger.View()), cands)
    ensures GrantsAreOnePerCustomer(outcomes)
    ensures DistinctRisks(cands) ==> multiset(Subjects(outcomes)) == multiset(cands)
  {
    var groups := GroupByCustomer(cands);
    var customers := Customers(cands);
    outcomes := [];
    var i := 0;
    assert customers[0..] == customers;
    while i < |customers|
      invariant 0 <= i <= |customers|
      invariant AllocateFor(s, at, ledger.View(), outcomes, cands, customers[i..])
                == Allocator.AllocateWindow(s, at, old(ledger.View()), cands)
    {
      assert customers[i..][0] == customers[i] && customers[i..][1..] == customers[i + 1..];
      assert customers[i] in customers;
      var own := Sort(groups[customers[i]], RiskLe);
      var admitted;
      outcomes, admitted := AdmitAll(s, ledger, at, outcomes, own);
      if admitted != [] {
        var ranked := Sort(admitted, RankOrder(s));
        var winner, denials := ContestSlot(s, ledger, at, ranked);
        ghost var k := Contest(ledger.View(), winner, denials);
        var granted := if winner.Some? then [GrantOf(winner.value)] else [];
        outcomes := SettleLosers(ledger, Contest(ledger.View(), winner, denials), outcomes + granted, ranked);
      }
      i := i + 1;
    }
    OneGrantPerCustomer(s, at, old(ledger.View()), cands);
    if DistinctRisks(cands) {
      EachCandidateOneOutcome(s, at, old(ledger.View()), cands);
    }
  }
}
