/**
 * Who wins a customer's slot: the first admitted candidate, in rank order, whose offer is not
 * abandoned as worthless, or nobody, because issuance refuses by customer and window alone.
 */
module AllocatorSelection {
  import opened Allocator
  import opened AllocatorProperties
  import opened Clock
  import opened Contracts
  import opened Ledger
  import opened LedgerInvariants
  import opened Margin
  import opened Ranking
  import opened Sorting
  import opened Wrappers

  // ---- What scoring and refusing depend on ----

  /** Ledgers that answer every question about scores, refusals and remaining margin alike. */
  ghost predicate Alike(world: World, t: Tables, t': Tables) {
    && t'.grants == t.grants && t'.claims == t.claims && t'.deniedRiskIds == t.deniedRiskIds
    && (forall r :: r in t.requests ==> r in t'.requests && t'.requests[r] == t.requests[r])
    && (forall w :: MerchantRemaining(world, t', w) == MerchantRemaining(world, t, w))
    && (forall c, w :: CustomerRemaining(world, t', c, w) == CustomerRemaining(world, t, c, w))
  }

  ghost predicate RequestsKnown(t: Tables) {
    forall i :: 0 <= i < |t.grants| ==> t.grants[i].requestId in t.requests
  }

  lemma TouchIsAlike(world: World, t: Tables, customer: CustomerId, w: Window)
    ensures Alike(world, t, Touch(world, t, customer, w))
  {
    TouchKeepsPools(world, t, customer, w);
  }

  lemma RememberIsAlike(world: World, t: Tables, request: GrantRequest)
    ensures Alike(world, t, Remember(t, request))
  {
    SamePoolsSameRemaining(world, t, Remember(t, request));
  }

  lemma {:induction false} OpenAmountsAlike(
    world: World, t: Tables, t': Tables, items: seq<RiskItem>, customer: CustomerId, at: Instant, excluded: RiskId)
    requires Alike(world, t, t') && RequestsKnown(t)
    ensures OpenAmounts(t', items, customer, at, excluded) == OpenAmounts(t, items, customer, at, excluded)
  {
    if items != [] {
      OpenAmountsAlike(world, t, t', items[1..], customer, at, excluded);
    }
  }

  lemma AlikeDecidesAlike(s: Setup, t: Tables, t': Tables, x: Scored, at: Instant)
    requires Alike(s.world, t, t') && RequestsKnown(t)
    ensures OfferFor(s, at, t', x) == OfferFor(s, at, t, x)
    ensures Refusal(s.world, t', x.1.customerId, x.1.windowId, at)
            == Refusal(s.world, t, x.1.customerId, x.1.windowId, at)
  {
    OpenAmountsAlike(s.world, t, t', RiskItemsFor(s.world, x.1.customerId), x.1.customerId, at, x.1.item.riskId);
  }

  // ---- The contest ----

  /** The candidate would not be abandoned for a worthless downgrade. */
  ghost predicate Viable(s: Setup, at: Instant, t: Tables, x: Scored) {
    var offer := OfferFor(s, at, t, x);
    offer.downgraded ==> offer.score > 0.0
  }

  ghost predicate SameSlot(ranked: seq<Scored>, customer: CustomerId, w: Window) {
    forall x :: x in ranked ==> x.1.customerId == customer && x.1.windowId == w
  }

  ghost predicate Ungranted(t: Tables, ranked: seq<Scored>) {
    forall x :: x in ranked ==> FindRequest(t.grants, x.1.request.requestId).None?
  }

  /** One attempt by a viable, first-time candidate: a grant unless the slot is refused. */
  lemma AttemptFollowsRefusal(s: Setup, at: Instant, k: Contest, x: Scored)
    requires k.winner.None? && RequestsKnown(k.tables) && Viable(s, at, k.tables, x)
    requires FindRequest(k.tables.grants, x.1.request.requestId).None?
    ensures var r := AttemptOne(s, at, k, x);
            match Refusal(s.world, k.tables, x.1.customerId, x.1.windowId, at)
            case None => r.winner.Some? && r.winner.value.candidate == x.1 && r.denials == k.denials
            case Some(reason) =>
              && r.winner.None? && Alike(s.world, k.tables, r.tables)
              && r.denials == k.denials[x.1.item.riskId := (reason, NextWindowStart(x.1.windowId))]
  {
    var c := x.1;
    var t := Touch(s.world, k.tables, c.customerId, c.windowId);
    TouchIsAlike(s.world, k.tables, c.customerId, c.windowId);
    AlikeDecidesAlike(s, k.tables, t, x, at);
    RememberIsAlike(s.world, t, c.request);
    var t1 := Touch(s.world, Remember(t, c.request), c.customerId, c.windowId);
    TouchIsAlike(s.world, Remember(t, c.request), c.customerId, c.windowId);
    AlikeDecidesAlike(s, k.tables, t1, x, at);
  }

  /** One attempt by a candidate whose downgraded offer is worthless: abandoned, whatever the slot. */
  lemma AttemptIsAbandoned(s: Setup, at: Instant, k: Contest, x: Scored)
    requires k.winner.None? && RequestsKnown(k.tables) && !Viable(s, at, k.tables, x)
    ensures var r := AttemptOne(s, at, k, x);
            && r.winner.None? && Alike(s.world, k.tables, r.tables)
            && r.denials
               == k.denials[x.1.item.riskId := (ExhaustedPool(s, k.tables, x.1), NextWindowStart(x.1.windowId))]
  {
    TouchIsAlike(s.world, k.tables, x.1.customerId, x.1.windowId);
    AlikeDecidesAlike(s, k.tables, Touch(s.world, k.tables, x.1.customerId, x.1.windowId), x, at);
  }

  /** Which pool an abandoned offer is blamed on: the smaller, the merchant's if they are equal. */
  function ExhaustedPool(s: Setup, t: Tables, c: Candidate): ReasonCode {
    if MerchantRemaining(s.world, t, c.windowId) <= CustomerRemaining(s.world, t, c.customerId, c.windowId)
    then MerchantMarginExhausted else CustomerMarginExhausted
  }

  /** Where the first viable candidate stands in a ranking; its length if there is none. */
  ghost function FirstViable(s: Setup, at: Instant, t: Tables, ranked: seq<Scored>): (i: nat)
    ensures i <= |ranked| && (i < |ranked| ==> Viable(s, at, t, ranked[i]))
    ensures forall j :: 0 <= j < i ==> !Viable(s, at, t, ranked[j])
    decreases |ranked|
  {
    if ranked == [] || Viable(s, at, t, ranked[0]) then 0 else
      var rest := FirstViable(s, at, t, ranked[1..]);
      assert forall j :: 0 < j < rest + 1 ==> ranked[j] == ranked[1..][j - 1];
      rest + 1
  }

  /** What a candidate that loses an attempt is told. */
  ghost function TurnedAway(s: Setup, at: Instant, t: Tables, refusal: Option<ReasonCode>,
                            x: Scored): (ReasonCode, Instant)
  {
    (if Viable(s, at, t, x) && refusal.Some? then refusal.value else ExhaustedPool(s, t, x.1),
     NextWindowStart(x.1.windowId))
  }

  /** The denials on record once these candidates have been turned away. */
  ghost function AllTurnedAway(s: Setup, at: Instant, t: Tables, refusal: Option<ReasonCode>,
                               denials: map<RiskId, (ReasonCode, Instant)>, xs: seq<Scored>)
    : map<RiskId, (ReasonCode, Instant)>
    decreases |xs|
  {
    if xs == [] then denials else
      AllTurnedAway(s, at, t, refusal, denials[xs[0].1.item.riskId := TurnedAway(s, at, t, refusal, xs[0])], xs[1..])
  }

  /**
   * How a contest ends: unless the slot is refused the first viable candidate of the ranking wins it
   * and those before are abandoned; otherwise nobody does, and every viable one is told the refusal.
   */
  ghost predicate Decided(s: Setup, at: Instant, t: Tables, refusal: Option<ReasonCode>,
                          denials: map<RiskId, (ReasonCode, Instant)>,
                          ranked: seq<Scored>, r: Contest)
  {
    var i := FirstViable(s, at, t, ranked);
    && (r.winner.Some? <==> refusal.None? && i < |ranked|)
    && (r.winner.Some? ==> r.winner.value.candidate == ranked[i].1)
    && r.denials == AllTurnedAway(s, at, t, refusal, denials, if refusal.Some? then ranked else ranked[..i])
  }

  lemma DecidedByFirst(s: Setup, at: Instant, t: Tables, denials: map<RiskId, (ReasonCode, Instant)>,
                       ranked: seq<Scored>, r: Contest)
    requires ranked != [] && Viable(s, at, t, ranked[0])
    requires r.winner.Some? && r.winner.value.candidate == ranked[0].1 && r.denials == denials
    ensures Decided(s, at, t, None, denials, ranked, r)
  {
    hide Viable;
  }

  lemma DecidedByRest(s: Setup, at: Instant, t: Tables, refusal: Option<ReasonCode>,
                      denials: map<RiskId, (ReasonCode, Instant)>, ranked: seq<Scored>, r: Contest)
    requires ranked != [] && (refusal.Some? || !Viable(s, at, t, ranked[0]))
    requires Decided(s, at, t, refusal, denials[ranked[0].1.item.riskId := TurnedAway(s, at, t, refusal, ranked[0])],
                     ranked[1..], r)
    ensures Decided(s, at, t, refusal, denials, ranked, r)
  {
    hide Viable, TurnedAway;
    if refusal.None? {
      var i := FirstViable(s, at, t, ranked);
      assert ranked[..i][1..] == ranked[1..][..i - 1];
    }
  }

  /** One attempt, judged on the ledger the contest starts from. */
  lemma AttemptJudged(s: Setup, at: Instant, t: Tables, k: Contest, x: Scored)
    requires k.winner.None? && RequestsKnown(t) && Alike(s.world, t, k.tables)
    requires FindRequest(t.grants, x.1.request.requestId).None?
    ensures var r, refusal := AttemptOne(s, at, k, x), Refusal(s.world, t, x.1.customerId, x.1.windowId, at);
            && (r.winner.Some? <==> refusal.None? && Viable(s, at, t, x))
            && (r.winner.Some? ==> r.winner.value.candidate == x.1 && r.denials == k.denials)
            && (r.winner.None? ==> Alike(s.world, t, r.tables)
                                   && r.denials == k.denials[x.1.item.riskId := TurnedAway(s, at, t, refusal, x)])
  {
    AlikeDecidesAlike(s, t, k.tables, x, at);
    if Viable(s, at, t, x) {
      AttemptFollowsRefusal(s, at, k, x);
    } else {
      AttemptIsAbandoned(s, at, k, x);
    }
  }

  /** The contest exactly, judged on the ledger it starts from. */
  lemma {:induction false} FirstViableWins(s: Setup, at: Instant, t: Tables, k: Contest, ranked: seq<Scored>,
                                           customer: CustomerId, w: Window)
    requires k.winner.None? && RequestsKnown(t) && Alike(s.world, t, k.tables)
    requires SameSlot(ranked, customer, w) && Ungranted(t, ranked)
    ensures Decided(s, at, t, Refusal(s.world, t, customer, w, at), k.denials, ranked, AttemptAll(s, at, k, ranked))
    decreases |ranked|
  {
    if ranked != [] {
      var x, rest, refusal := ranked[0], ranked[1..], Refusal(s.world, t, customer, w, at);
      assert x in ranked && forall y :: y in rest ==> y in ranked;
      AttemptJudged(s, at, t, k, x);
      hide AttemptOne, Refusal, Viable, TurnedAway, Alike, Decided;
      var k' := AttemptOne(s, at, k, x);
      if k'.winner.Some? {
        AttemptsStopAtWinner(s, at, k', rest);
        DecidedByFirst(s, at, t, k.denials, ranked, k');
      } else {
        FirstViableWins(s, at, t, k', rest, customer, w);
        DecidedByRest(s, at, t, refusal, k.denials, ranked, AttemptAll(s, at, k', rest));
      }
    }
  }

  /** The slot went to this candidate. */
  ghost predicate Won(r: Contest, c: Candidate) {
    r.winner.Some? && r.winner.value.candidate == c
  }

  /** What a decided contest says of the first-ranked, and of everybody. */
  lemma DecidedTop(s: Setup, at: Instant, t: Tables, refusal: Option<ReasonCode>,
                   denials: map<RiskId, (ReasonCode, Instant)>, ranked: seq<Scored>, r: Contest)
    requires ranked != [] && Decided(s, at, t, refusal, denials, ranked, r)
    ensures Won(r, ranked[0].1) <==> refusal.None? && Viable(s, at, t, ranked[0])
    ensures r.winner.None? <==> refusal.Some? || forall x :: x in ranked ==> !Viable(s, at, t, x)
  {
    var i := FirstViable(s, at, t, ranked);
    if i < |ranked| {
      assert ranked[i] in ranked;
      if ranked[i].1 == ranked[0].1 {
        SameCandidateSameViability(s, at, t, ranked[i], ranked[0]);
      }
    }
    hide Viable;
  }

  /** The first-ranked candidate wins exactly if the slot is not refused and its offer is not abandoned. */
  lemma TopOrNobody(s: Setup, at: Instant, k: Contest, ranked: seq<Scored>, customer: CustomerId, w: Window)
    requires k.winner.None? && RequestsKnown(k.tables) && ranked != []
    requires SameSlot(ranked, customer, w) && Ungranted(k.tables, ranked)
    ensures var r, refusal := AttemptAll(s, at, k, ranked), Refusal(s.world, k.tables, customer, w, at);
            && (Won(r, ranked[0].1) <==> refusal.None? && Viable(s, at, k.tables, ranked[0]))
            && (r.winner.None? <==> refusal.Some? || forall x :: x in ranked ==> !Viable(s, at, k.tables, x))
  {
    FirstViableWins(s, at, k.tables, k, ranked, customer, w);
    hide *;
    DecidedTop(s, at, k.tables, Refusal(s.world, k.tables, customer, w, at), k.denials, ranked,
               AttemptAll(s, at, k, ranked));
  }

  /** Whether an offer is abandoned depends on the candidate alone. */
  lemma SameCandidateSameViability(s: Setup, at: Instant, t: Tables, x: Scored, y: Scored)
    requires x.1 == y.1
    ensures Viable(s, at, t, x) <==> Viable(s, at, t, y)
  {
  }

  lemma {:induction false} AttemptsStopAtWinner(s: Setup, at: Instant, k: Contest, ranked: seq<Scored>)
    requires k.winner.Some?
    ensures AttemptAll(s, at, k, ranked) == k
    decreases |ranked|
  {
    if ranked != [] {
      AttemptsStopAtWinner(s, at, k, ranked[1..]);
    }
  }

  // ---- Why a downgrade is never abandoned ----

  ghost predicate Subsequence(a: seq<int>, b: seq<int>) {
    a == [] || (b != [] && ((a[0] == b[0] && Subsequence(a[1..], b[1..])) || Subsequence(a, b[1..])))
  }

  ghost predicate LowerRateNeverHurts(scorer: Scorer) {
    forall c: Candidate, lo: int, hi: int, n: nat, open: seq<int> :: 0 <= lo <= hi ==>
      scorer(c, lo, n, open) >= scorer(c, hi, n, open)
  }

  ghost predicate FewerOpenNeverHurts(scorer: Scorer) {
    forall c: Candidate, bps: int, n: nat, fewer: seq<int>, more: seq<int> ::
      Subsequence(fewer, more) ==> scorer(c, bps, n, fewer) >= scorer(c, bps, n, more)
  }

  /** The frozen formula: a recovery probability is not negative, so a smaller incentive costs less. */
  lemma HeuristicLowerRateNeverHurts(terms: Terms)
    requires forall source, cause, n: nat :: terms.pHat(source, cause, n) >= 0.0
    ensures LowerRateNeverHurts(HeuristicScorer(terms))
  {
    var scorer := HeuristicScorer(terms);
    forall c: Candidate, lo: int, hi: int, n: nat, open: seq<int> | 0 <= lo <= hi
      ensures scorer(c, lo, n, open) >= scorer(c, hi, n, open)
    {
      var gross := terms.pHat(c.item.source, c.item.rootCause, n) * c.item.amountPaise as real;
      assert gross >= 0.0;
      assert gross * lo as real <= gross * hi as real;
    }
  }

  /** Exactly the terms whose fatigue cost does not fall when an item is opened never prefer more open items. */
  lemma HeuristicFewerOpenNeverHurts(terms: Terms)
    ensures FewerOpenNeverHurts(HeuristicScorer(terms))
            <==> forall n: nat, fewer, more :: Subsequence(fewer, more) ==>
                   terms.fatigueCost(n, fewer) <= terms.fatigueCost(n, more)
  {
    var scorer := HeuristicScorer(terms);
    if FewerOpenNeverHurts(scorer) {
      forall n: nat, fewer, more | Subsequence(fewer, more)
        ensures terms.fatigueCost(n, fewer) <= terms.fatigueCost(n, more)
      {
        var request := GrantRequest(0, 0, 0, 0, "", "", 0, 0);
        var c := Candidate(request, RiskItem(0, "", 1, "", 0), 0, 0, 0, 0, 0);
        assert scorer(c, 0, n, fewer) >= scorer(c, 0, n, more);
      }
    }
  }

  /** Denying more risk items only ever removes open amounts. */
  lemma {:induction false} DenyingShrinksOpen(t: Tables, denied: set<RiskId>, items: seq<RiskItem>,
                                              customer: CustomerId, at: Instant, excluded: RiskId)
    requires denied <= t.deniedRiskIds
    ensures Subsequence(OpenAmounts(t, items, customer, at, excluded),
                        OpenAmounts(t.(deniedRiskIds := denied), items, customer, at, excluded))
  {
    if items != [] {
      var before := t.(deniedRiskIds := denied);
      DenyingShrinksOpen(t, denied, items[1..], customer, at, excluded);
      var rest, rest' := OpenAmounts(before, items[1..], customer, at, excluded),
          OpenAmounts(t, items[1..], customer, at, excluded);
      var all, all' := OpenAmounts(before, items, customer, at, excluded),
          OpenAmounts(t, items, customer, at, excluded);
      if IsOpen(before, customer, at, excluded, items[0]) {
        assert all == [items[0].amountPaise] + rest && all[1..] == rest;
        if IsOpen(t, customer, at, excluded, items[0]) {
          assert all' == [items[0].amountPaise] + rest' && all'[1..] == rest';
        } else {
          assert all' == rest';
        }
      } else {
        assert !IsOpen(t, customer, at, excluded, items[0]);
        assert all == rest && all' == rest';
      }
    }
  }

  /** The candidate was admitted at a positive score, before some of the denials of `t`. */
  ghost predicate AdmittedOn(s: Setup, at: Instant, t: Tables, denied: set<RiskId>, x: Scored) {
    denied <= t.deniedRiskIds && x.0 > 0.0
      && x.0 == ScoreNow(s, t.(deniedRiskIds := denied), x.1, x.1.request.maxIncentiveBps, at)
  }

  ghost predicate WellPriced(c: Candidate) {
    c.requestedCeilingPaise == IncentiveCeilingPaise(c.item.amountPaise, c.request.maxIncentiveBps)
  }

  lemma OfferStaysWorthwhile(s: Setup, at: Instant, t: Tables, denied: set<RiskId>, x: Scored)
    requires LowerRateNeverHurts(s.scorer) && (FewerOpenNeverHurts(s.scorer) || denied == t.deniedRiskIds)
    requires WellPriced(x.1) && AdmittedOn(s, at, t, denied, x)
    ensures Viable(s, at, t, x)
    ensures OfferFor(s, at, t, x).bps <= x.1.request.maxIncentiveBps
    ensures OfferFor(s, at, t, x).score >= x.0
  {
    var c := x.1;
    var d := DowngradeToFit(c.requestedCeilingPaise, MerchantRemaining(s.world, t, c.windowId),
                            CustomerRemaining(s.world, t, c.customerId, c.windowId));
    if d < c.requestedCeilingPaise {
      EffectiveBpsIsSound(c.item.amountPaise, c.request.maxIncentiveBps, d);
      var bps := EffectiveBps(d, c.item.amountPaise);
      var before := t.(deniedRiskIds := denied);
      assert t.(deniedRiskIds := t.deniedRiskIds) == t;
      DenyingShrinksOpen(t, denied, RiskItemsFor(s.world, c.customerId), c.customerId, at, c.item.riskId);
      assert ScoreNow(s, t, c, bps, at) >= ScoreNow(s, before, c, bps, at) >= x.0;
    }
  }

  /** Admission only denies and collects: every admitted candidate keeps the score it got. */
  lemma {:induction false} AdmitAllScores(s: Setup, at: Instant, a: Admission, cands: seq<Candidate>, base: set<RiskId>)
    requires !s.fifoMode && base <= a.tables.deniedRiskIds
    requires forall x :: x in a.admitted ==> exists d :: base <= d && AdmittedOn(s, at, a.tables, d, x)
    ensures var r := AdmitAll(s, at, a, cands);
            && (forall x :: x in r.admitted ==> exists d :: base <= d && AdmittedOn(s, at, r.tables, d, x))
            && r.tables == a.tables.(deniedRiskIds := r.tables.deniedRiskIds)
            && (forall x :: x in r.admitted ==> x in a.admitted || x.1 in cands)
            && (r.outcomes == a.outcomes ==> r.tables == a.tables)
            && |a.outcomes| <= |r.outcomes|
    decreases |cands|
  {
    if cands != [] {
      var a' := AdmitOne(s, at, a, cands[0]);
      assert a.tables.(deniedRiskIds := a.tables.deniedRiskIds) == a.tables;
      forall x | x in a'.admitted ensures exists d :: base <= d && AdmittedOn(s, at, a'.tables, d, x) {
        if x in a.admitted {
          var d :| base <= d && AdmittedOn(s, at, a.tables, d, x);
          assert a'.tables.(deniedRiskIds := d) == a.tables.(deniedRiskIds := d);
          assert AdmittedOn(s, at, a'.tables, d, x);
        } else {
          assert AdmittedOn(s, at, a'.tables, a.tables.deniedRiskIds, x);
        }
      }
      AdmitAllScores(s, at, a', cands[1..], base);
    }
  }

  /** Admission only denies risk items, and admits none but the candidates. */
  lemma {:induction false} AdmitAllOnlyDenies(s: Setup, at: Instant, a: Admission, cands: seq<Candidate>)
    ensures var r := AdmitAll(s, at, a, cands);
            && r.tables == a.tables.(deniedRiskIds := r.tables.deniedRiskIds)
            && (forall x :: x in r.admitted ==> x in a.admitted || x.1 in cands)
    decreases |cands|
  {
    if cands != [] {
      AdmitAllOnlyDenies(s, at, AdmitOne(s, at, a, cands[0]), cands[1..]);
    }
  }

  /** Outranks everybody whose offer is not abandoned. */
  ghost predicate RanksFirst(s: Setup, at: Instant, t: Tables, admitted: seq<Scored>, c: Candidate) {
    exists x :: x in admitted && x.1 == c && Viable(s, at, t, x)
                && forall y :: y in admitted && Viable(s, at, t, y) ==> Outranks(s, x, y)
  }

  /** One customer's candidates for one window, none of them granted before. */
  ghost predicate OneSlot(t: Tables, cands: seq<Candidate>, customer: CustomerId, w: Window) {
    && RequestsKnown(t)
    && forall c :: c in cands ==>
         c.customerId == customer && c.windowId == w && FindRequest(t.grants, c.request.requestId).None?
  }

  lemma RankedShareTheSlot(t: Tables, t': Tables, cands: seq<Candidate>, ranked: seq<Scored>, customer: CustomerId,
                           w: Window)
    requires OneSlot(t, cands, customer, w) && t' == t.(deniedRiskIds := t'.deniedRiskIds)
    requires forall x :: x in ranked ==> x.1 in cands
    ensures RequestsKnown(t') && SameSlot(ranked, customer, w) && Ungranted(t', ranked)
  {
    hide FindRequest;
  }

  lemma AdmittedShareTheSlot(s: Setup, at: Instant, t: Tables, cands: seq<Candidate>, customer: CustomerId, w: Window)
    requires OneSlot(t, cands, customer, w)
    ensures var a := AdmitAll(s, at, Admission(t, [], []), cands);
            var ranked := Sort(a.admitted, RankOrder(s));
            && RequestsKnown(a.tables) && SameSlot(ranked, customer, w) && Ungranted(a.tables, ranked)
            && Refusal(s.world, a.tables, customer, w, at) == Refusal(s.world, t, customer, w, at)
            && |ranked| == |a.admitted|
  {
    AdmitAllOnlyDenies(s, at, Admission(t, [], []), cands);
    hide AdmitAll, Refusal, OneSlot, RequestsKnown, SameSlot, Ungranted, FindRequest, RankOrder;
    var a := AdmitAll(s, at, Admission(t, [], []), cands);
    var ranked := Sort(a.admitted, RankOrder(s));
    SameMembers(a.admitted, ranked);
    RankedShareTheSlot(t, a.tables, cands, ranked, customer, w);
    RefusalIgnoresDenials(s.world, t, a.tables, customer, w, at);
  }

  /** How a customer's round goes from admission to the end of the contest. */
  ghost function RoundContest(s: Setup, at: Instant, t: Tables, cands: seq<Candidate>): (seq<Scored>, Contest) {
    var a := AdmitAll(s, at, Admission(t, [], []), cands);
    var ranked := Sort(a.admitted, RankOrder(s));
    (ranked, AttemptAll(s, at, Contest(a.tables, None, map[]), ranked))
  }

  ghost function AdmittedLedger(s: Setup, at: Instant, t: Tables, cands: seq<Candidate>): Tables {
    AdmitAll(s, at, Admission(t, [], []), cands).tables
  }

  /**
   * A customer's round, for any scorer and in either mode: the highest priority among the admitted
   * gets the slot exactly when issuance does not refuse it and its downgraded offer, if it needs one,
   * is still worth something on the ledger admission leaves.  Otherwise the slot goes to the first of
   * the ranking of whom that is true, or to nobody.
   */
  lemma HighestPriorityOrNobody(s: Setup, at: Instant, t: Tables, cands: seq<Candidate>, customer: CustomerId,
                                w: Window)
    requires OneSlot(t, cands, customer, w)
    ensures var (ranked, k) := RoundContest(s, at, t, cands);
            var refusal, after := Refusal(s.world, t, customer, w, at), AdmittedLedger(s, at, t, cands);
            && Decided(s, at, after, refusal, map[], ranked, k)
            && (ranked != [] ==> (Won(k, ranked[0].1) <==> refusal.None? && Viable(s, at, after, ranked[0])))
            && (k.winner.None? <==> refusal.Some? || forall x :: x in ranked ==> !Viable(s, at, after, x))
            && (k.winner.Some? ==> RanksFirst(s, at, after, ranked, k.winner.value.candidate))
  {
    var (ranked, k) := RoundContest(s, at, t, cands);
    var refusal, after := Refusal(s.world, t, customer, w, at), AdmittedLedger(s, at, t, cands);
    AdmittedShareTheSlot(s, at, t, cands, customer, w);
    FirstViableWins(s, at, after, Contest(after, None, map[]), ranked, customer, w);
    RankingIsSorted(s, AdmitAll(s, at, Admission(t, [], []), cands).admitted);
    RoundIsDecided(s, at, after, refusal, ranked, k);
  }

  lemma RankingIsSorted(s: Setup, admitted: seq<Scored>)
    ensures Sorted(Sort(admitted, RankOrder(s)), RankOrder(s)) && TotalPreorder(RankOrder(s))
  {
    RankOrderIsTotal(s);
    SortSorts(admitted, RankOrder(s));
  }

  lemma RoundIsDecided(s: Setup, at: Instant, t: Tables, refusal: Option<ReasonCode>, ranked: seq<Scored>, k: Contest)
    requires Decided(s, at, t, refusal, map[], ranked, k)
    requires Sorted(ranked, RankOrder(s)) && TotalPreorder(RankOrder(s))
    ensures ranked != [] ==> (Won(k, ranked[0].1) <==> refusal.None? && Viable(s, at, t, ranked[0]))
    ensures k.winner.None? <==> refusal.Some? || forall x :: x in ranked ==> !Viable(s, at, t, x)
    ensures k.winner.Some? ==> RanksFirst(s, at, t, ranked, k.winner.value.candidate)
  {
    if ranked != [] {
      DecidedTop(s, at, t, refusal, map[], ranked, k);
    }
    if k.winner.Some? {
      FirstViableRanksFirst(s, at, t, ranked);
    }
  }

  lemma FirstViableRanksFirst(s: Setup, at: Instant, t: Tables, ranked: seq<Scored>)
    requires Sorted(ranked, RankOrder(s)) && TotalPreorder(RankOrder(s)) && FirstViable(s, at, t, ranked) < |ranked|
    ensures RanksFirst(s, at, t, ranked, ranked[FirstViable(s, at, t, ranked)].1)
  {
    hide Viable, RankOrder, Outranks;
    var i := FirstViable(s, at, t, ranked);
    forall y | y in ranked && Viable(s, at, t, y) ensures Outranks(s, ranked[i], y) {
      var j :| 0 <= j < |ranked| && ranked[j] == y;
      assert j >= i;
      assert RankOrder(s)(y, y);
      RanksAsPromised(s, ranked[i], y);
    }
    assert ranked[i] in ranked;
  }

  /**
   * No offer of a round is ever abandoned, so the highest priority always wins an unrefused slot, if
   * a higher incentive never raises a score and either open items never do, or the round denied none.
   */
  lemma NothingIsAbandoned(s: Setup, at: Instant, t: Tables, cands: seq<Candidate>)
    requires !s.fifoMode && LowerRateNeverHurts(s.scorer)
    requires forall c :: c in cands ==> WellPriced(c)
    requires FewerOpenNeverHurts(s.scorer) || AdmitAll(s, at, Admission(t, [], []), cands).outcomes == []
    ensures forall x :: x in RoundContest(s, at, t, cands).0 ==> Viable(s, at, AdmittedLedger(s, at, t, cands), x)
  {
    var a := AdmitAll(s, at, Admission(t, [], []), cands);
    AdmitAllScores(s, at, Admission(t, [], []), cands, t.deniedRiskIds);
    SameMembers(a.admitted, Sort(a.admitted, RankOrder(s)));
    forall x | x in a.admitted ensures Viable(s, at, a.tables, x) {
      var d :| t.deniedRiskIds <= d && AdmittedOn(s, at, a.tables, d, x);
      OfferStaysWorthwhile(s, at, a.tables, d, x);
    }
  }

  lemma RefusalIgnoresDenials(world: World, t: Tables, t': Tables, customer: CustomerId, w: Window, at: Instant)
    requires t' == t.(deniedRiskIds := t'.deniedRiskIds)
    ensures Refusal(world, t', customer, w, at) == Refusal(world, t, customer, w, at)
  {
  }
}
