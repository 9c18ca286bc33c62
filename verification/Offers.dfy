/**
 * What a candidate is offered and what becomes of the attempt (sampark/allocator/scoring.py,
 * greedy.py): the score, the downgrade to what both pools still cover, and the answer it leads to.
 */
module Offers {
  import opened Allocator
  import opened Clock
  import opened Contracts
  import Fatigue
  import opened Ledger
  import opened LedgerMeaning
  import opened Margin
  import opened Wrappers

  // ---- The score ----

  /**
   * Expected net recovery: what the item is expected to bring, less the share given away as incentive,
   * less the channel and the fatigue.
   */
  lemma ScoreMeans(terms: Terms, c: Candidate, bps: int, contacts: nat, open: seq<int>)
    ensures ExpectedNet(terms, c, bps, contacts, open) + terms.channelCost(c.request.channel) as real
            + terms.fatigueCost(contacts, open)
            == terms.pHat(c.item.source, c.item.rootCause, contacts) * c.item.amountPaise as real
               * (10_000 - bps) as real / 10_000.0
  {
    var gross := terms.pHat(c.item.source, c.item.rootCause, contacts) * c.item.amountPaise as real;
    assert gross * (10_000 - bps) as real == gross * 10_000.0 - gross * bps as real;
  }

  lemma CostTimesHorizon(cost: real, scale: real, lost: real, value: real, horizon: real)
    requires horizon > 0.0 && cost == Fatigue.Share(scale, lost, value, horizon)
    ensures cost * horizon == scale * lost * value
  {
    var each := value / horizon;
    assert each * horizon == value;
    assert scale * lost * each * horizon == scale * lost * (each * horizon);
  }

  /**
   * The fatigue cost times the horizon of open and future items: the chance that a contact after n
   * others recovers anything, what the decay over the horizon loses of it, and the value at stake.
   */
  lemma FatigueMeans(f: Fatigue.Forward, n: nat, open: seq<int>)
    returns (chance: real, lost: real, stake: real, horizon: real)
    requires Fatigue.Proper(f)
    ensures chance == f.pBaseMean * Fatigue.Pow(f.decay, n)
    ensures lost == 1.0 - Fatigue.Pow(f.decay, |open|) * f.decayFuture
    ensures stake == Fatigue.Total(open) as real + f.futureCount * f.meanAmountPaise
    ensures horizon == |open| as real + f.futureCount
    ensures Fatigue.FatigueCost(f, n, open) * horizon == chance * lost * stake
  {
    Fatigue.CostIsShare(f, n, open);
    chance, lost := Fatigue.Scale(f, n), Fatigue.Lost(f, |open|);
    stake, horizon := Fatigue.ForwardValue(f, Fatigue.Total(open)), Fatigue.Horizon(f, |open|);
    CostTimesHorizon(Fatigue.FatigueCost(f, n, open), chance, lost, stake, horizon);
  }

  // ---- The offer ----

  /** These are the pools a candidate would be paid from. */
  ghost predicate PaidFrom(s: Setup, t: Tables, c: Candidate, merchant: Pool, own: Pool) {
    IsMerchantPool(s.world, t, c.windowId, merchant) && IsCustomerPool(s.world, t, c.customerId, c.windowId, own)
  }

  ghost predicate CoveredInFull(c: Candidate, merchant: Pool, own: Pool) {
    c.requestedCeilingPaise <= 0 || (c.requestedCeilingPaise <= Left(merchant) && c.requestedCeilingPaise <= Left(own))
  }

  /** The largest rate whose ceiling, before rounding, both pools still cover. */
  ghost predicate LargestRate(amountPaise: int, merchant: Pool, own: Pool, bps: int) {
    var left := if Left(merchant) <= Left(own) then Left(merchant) else Left(own);
    var covered := if left <= 0 then 0 else left;
    bps * amountPaise <= covered * 10_000 < (bps + 1) * amountPaise
  }

  /** The score at a rate, on the contacts made and the items open by now. */
  ghost function ScoreAt(s: Setup, at: Instant, t: Tables, c: Candidate, bps: int): real {
    s.scorer(c, bps, ContactsMade(t, c.customerId, at), OtherOpenAmounts(s.world, t, c.customerId, at, c.item.riskId))
  }

  lemma PaidFromPools(s: Setup, t: Tables, c: Candidate, merchant: Pool, own: Pool)
    requires PaidFrom(s, t, c, merchant, own)
    ensures Left(merchant) == MerchantRemaining(s.world, t, c.windowId)
    ensures Left(own) == CustomerRemaining(s.world, t, c.customerId, c.windowId)
  {
    OnePool(s.world, t, c.customerId, c.windowId, merchant);
    OnePool(s.world, t, c.customerId, c.windowId, own);
    hide IsMerchantPool, IsCustomerPool, MerchantPool, CustomerPool;
  }

  lemma LargestRateIs(amountPaise: int, d: int)
    requires amountPaise > 0
    ensures EffectiveBps(d, amountPaise) * amountPaise <= d * 10_000 < (EffectiveBps(d, amountPaise) + 1) * amountPaise
  {
    FloorBounds(d * 10_000, amountPaise);
  }

  lemma DowngradeMeans(asked: int, merchantLeft: int, ownLeft: int)
    ensures var d, least := DowngradeToFit(asked, merchantLeft, ownLeft), if merchantLeft <= ownLeft then merchantLeft
            else ownLeft;
            && (d < asked <==> asked > 0 && (asked > merchantLeft || asked > ownLeft))
            && (d < asked ==> d == if least <= 0 then 0 else least)
  {
  }

  /**
   * The offer: what was asked for, at the score it was admitted at, if both pools cover it; otherwise
   * the largest rate they cover, scored anew.
   */
  lemma OfferMeans(s: Setup, at: Instant, t: Tables, x: Scored, merchant: Pool, own: Pool)
    requires PaidFrom(s, t, x.1, merchant, own)
    ensures var offer := OfferFor(s, at, t, x);
            if CoveredInFull(x.1, merchant, own)
            then offer == Offer(x.1.request.maxIncentiveBps, x.0, false)
            else && LargestRate(x.1.item.amountPaise, merchant, own, offer.bps)
                 && offer == Offer(offer.bps, ScoreAt(s, at, t, x.1, offer.bps), true)
  {
    var c := x.1;
    PaidFromPools(s, t, c, merchant, own);
    DowngradeMeans(c.requestedCeilingPaise, Left(merchant), Left(own));
    LargestRateIs(c.item.amountPaise, DowngradeToFit(c.requestedCeilingPaise, Left(merchant), Left(own)));
    hide PaidFrom, MerchantRemaining, CustomerRemaining, ContactsMade, OtherOpenAmounts, EffectiveBps, Left,
         DowngradeToFit;
  }

  lemma TouchedOffer(s: Setup, at: Instant, t: Tables, x: Scored)
    ensures var t' := Touch(s.world, t, x.1.customerId, x.1.windowId);
            && OfferFor(s, at, t', x) == OfferFor(s, at, t, x)
            && MerchantRemaining(s.world, t', x.1.windowId) == MerchantRemaining(s.world, t, x.1.windowId)
            && CustomerRemaining(s.world, t', x.1.customerId, x.1.windowId)
               == CustomerRemaining(s.world, t, x.1.customerId, x.1.windowId)
  {
    SameOpenAmounts(t, Touch(s.world, t, x.1.customerId, x.1.windowId), RiskItemsFor(s.world, x.1.customerId),
                    x.1.customerId, at, x.1.item.riskId);
    hide FreshMerchantPool, FreshCustomerPool, DowngradeToFit, EffectiveBps, CountContacted, OpenAmounts;
  }

  lemma {:induction false} SameOpenAmounts(t: Tables, t': Tables, items: seq<RiskItem>, customer: CustomerId,
                                           at: Instant, excluded: RiskId)
    requires t'.grants == t.grants && t'.requests == t.requests && t'.deniedRiskIds == t.deniedRiskIds
    ensures OpenAmounts(t', items, customer, at, excluded) == OpenAmounts(t, items, customer, at, excluded)
  {
    if items != [] {
      SameOpenAmounts(t, t', items[1..], customer, at, excluded);
    }
  }

  /**
   * An attempt in full.  Once there is a winner nobody else tries.  A downgraded offer that is not worth
   * sending is abandoned until the next day, and blamed on the pool with less left, the merchant's if
   * both have as much.  Any other is put to issuance, whose answer makes a winner or is noted.
   */
  lemma AttemptMeans(s: Setup, at: Instant, k: Contest, x: Scored, merchant: Pool, own: Pool)
    requires PaidFrom(s, k.tables, x.1, merchant, own)
    ensures var r, c, offer := AttemptOne(s, at, k, x), x.1, OfferFor(s, at, k.tables, x);
            var touched := Touch(s.world, k.tables, c.customerId, c.windowId);
            var (answer, issued) := IssueGrant(s.world, touched, c, offer.bps, at);
            if k.winner.Some? then r == k
            else if !CoveredInFull(c, merchant, own) && offer.score <= 0.0
            then r == Contest(touched, None, k.denials[c.item.riskId :=
                   (if Left(merchant) <= Left(own) then MerchantMarginExhausted else CustomerMarginExhausted,
                    WindowStartFor(c.windowId + 1))])
            else if answer.GrantIssued?
            then r == Contest(issued, Some(Winner(c, answer.grant, offer.bps, offer.score)), k.denials)
            else r == Contest(issued, None, k.denials[c.item.riskId := (answer.reason, answer.nextEligibleAt)])
  {
    PaidFromPools(s, k.tables, x.1, merchant, own);
    OfferMeans(s, at, k.tables, x, merchant, own);
    TouchedOffer(s, at, k.tables, x);
    hide PaidFrom, OfferFor, MerchantRemaining, CustomerRemaining, Touch, IssueGrant, Left, LargestRate, CoveredInFull;
  }

  /** A winner is told its grant, the rate and the score it was granted at, and nothing else. */
  lemma WinnerIsTold(w: Winner)
    ensures var o := GrantOf(w);
            && o.kind.Granted? && o.candidate == w.candidate && o.grant == Some(w.grant)
            && o.effectiveBps == Some(w.effectiveBps) && o.score == Some(w.score)
            && o.reason.None? && o.nextEligibleAt.None? && o.rescheduled.None?
  {
  }
}
