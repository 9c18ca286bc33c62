/**
 * The budgeted greedy allocator (sampark/allocator/greedy.py, scoring.py, outcomes.py) on ledger
 * values: partition by customer, score, admit, rank, attempt with fallback, defer or deny the rest.
 */
module Allocator {
  import opened Clock
  import opened Contracts
  import opened Ledger
  import opened Margin
  import opened Sorting
  import opened Wrappers

  // ---- Scoring ----

  /** A scorer's expected_net for (candidate, offered bps, contacts made, other open amounts). */
  type Scorer = (Candidate, int, nat, seq<int>) -> real

  /** The three terms the frozen formula draws from elsewhere; none of them sees the incentive. */
  datatype Terms = Terms(
    pHat: (string, string, nat) -> real, channelCost: string -> int, fatigueCost: (nat, seq<int>) -> real)

  function ExpectedNet(terms: Terms, c: Candidate, bps: int, contacts: nat, otherOpen: seq<int>): real {
    var gross := terms.pHat(c.item.source, c.item.rootCause, contacts) * c.item.amountPaise as real;
    gross - terms.channelCost(c.request.channel) as real - gross * bps as real / 10_000.0
    - terms.fatigueCost(contacts, otherOpen)
  }

  function HeuristicScorer(terms: Terms): Scorer {
    (c: Candidate, bps: int, contacts: nat, otherOpen: seq<int>) => ExpectedNet(terms, c, bps, contacts, otherOpen)
  }

  function Priority(expectedNet: real, windowsDeferred: nat, agingBonusPaise: int): real {
    expectedNet + (agingBonusPaise * windowsDeferred) as real
  }

  /** What one run of the allocator is set up with. */
  datatype Setup = Setup(world: World, scorer: Scorer, agingBonusPaise: int, fifoMode: bool)

  function ScoreNow(s: Setup, t: Tables, c: Candidate, bps: int, at: Instant): real {
    s.scorer(c, bps, ContactsMade(t, c.customerId, at), OtherOpenAmounts(s.world, t, c.customerId, at, c.item.riskId))
  }

  // ---- Outcomes ----

  datatype OutcomeKind = Granted | Denied | Deferred

  datatype Outcome = Outcome(
    candidate: Candidate, kind: OutcomeKind, reason: Option<ReasonCode>, nextEligibleAt: Option<Instant>,
    grant: Option<Grant>, score: Option<real>, rescheduled: Option<Candidate>, effectiveBps: Option<int>)

  function DenialOf(c: Candidate, reason: ReasonCode, score: Option<real>): Outcome {
    Outcome(c, Denied, Some(reason), None, None, score, None, None)
  }

  predicate DeferralExhausts(c: Candidate) {
    c.windowsDeferred + 1 >= MAX_DEFERRAL_WINDOWS
  }

  function DeferredOrDenied(c: Candidate, reason: ReasonCode, nextEligibleAt: Instant, score: Option<real>): Outcome {
    if DeferralExhausts(c) then
      DenialOf(c, DeferralExhausted, score)
    else
      Outcome(c, Deferred, Some(reason), Some(nextEligibleAt), None, score,
              Some(Rescheduled(Aged(c), WindowIdFor(nextEligibleAt), nextEligibleAt)), None)
  }

  /** The one effect of a deferral on the ledger: exhaustion marks the risk item denied. */
  function AfterDeferral(t: Tables, c: Candidate): Tables {
    if DeferralExhausts(c) then MarkDenied(t, c.item.riskId) else t
  }

  // ---- Orders ----

  type Scored = (real, Candidate)

  predicate RiskLe(a: Candidate, b: Candidate) {
    a.item.riskId <= b.item.riskId
  }

  predicate TieBreakLe(agingBonusPaise: int, a: Scored, b: Scored) {
    var pa := Priority(a.0, a.1.windowsDeferred, agingBonusPaise);
    var pb := Priority(b.0, b.1.windowsDeferred, agingBonusPaise);
    pa > pb || (pa == pb &&
    (a.1.item.amountPaise > b.1.item.amountPaise || (a.1.item.amountPaise == b.1.item.amountPaise &&
    FifoLe(a, b))))
  }

  predicate FifoLe(a: Scored, b: Scored) {
    a.1.item.detectedAt < b.1.item.detectedAt || (a.1.item.detectedAt == b.1.item.detectedAt &&
    (a.1.item.riskId < b.1.item.riskId || (a.1.item.riskId == b.1.item.riskId &&
    a.1.request.agentId <= b.1.request.agentId)))
  }

  function RankOrder(s: Setup): (Scored, Scored) -> bool {
    if s.fifoMode then FifoLe else (a: Scored, b: Scored) => TieBreakLe(s.agingBonusPaise, a, b)
  }

  // ---- Partition by customer ----

  function InsertKey(k: int, keys: seq<int>): seq<int> {
    if keys == [] || k < keys[0] then [k] + keys
    else if k == keys[0] then keys
    else [keys[0]] + InsertKey(k, keys[1..])
  }

  /** sorted(by_customer): each customer once, in order. */
  function Customers(cands: seq<Candidate>): seq<CustomerId> {
    if cands == [] then [] else InsertKey(cands[0].customerId, Customers(cands[1..]))
  }

  function Of(cands: seq<Candidate>, customer: CustomerId): seq<Candidate> {
    if cands == [] then [] else
      (if cands[0].customerId == customer then [cands[0]] else []) + Of(cands[1..], customer)
  }

  /** A customer's candidates in risk-id order. */
  function CandidatesOf(cands: seq<Candidate>, customer: CustomerId): seq<Candidate> {
    Sort(Of(cands, customer), RiskLe)
  }

  // ---- Admission ----

  datatype Admission = Admission(tables: Tables, outcomes: seq<Outcome>, admitted: seq<Scored>)

  function AdmitOne(s: Setup, at: Instant, a: Admission, c: Candidate): Admission {
    var score := ScoreNow(s, a.tables, c, c.request.maxIncentiveBps, at);
    if score <= 0.0 && !s.fifoMode then
      a.(tables := MarkDenied(a.tables, c.item.riskId),
         outcomes := a.outcomes + [DenialOf(c, NegativeExpectedNet, Some(score))])
    else
      a.(admitted := a.admitted + [(score, c)])
  }

  function AdmitAll(s: Setup, at: Instant, a: Admission, cands: seq<Candidate>): Admission
    decreases |cands|
  {
    if cands == [] then a else AdmitAll(s, at, AdmitOne(s, at, a, cands[0]), cands[1..])
  }

  // ---- The contest for the customer's slot ----

  datatype Winner = Winner(candidate: Candidate, grant: Grant, effectiveBps: int, score: real)

  datatype Contest = Contest(tables: Tables, winner: Option<Winner>, denials: map<RiskId, (ReasonCode, Instant)>)

  /** The terms an attempt is made on: the request's own, or what both pools still cover. */
  datatype Offer = Offer(bps: int, score: real, downgraded: bool)

  function OfferFor(s: Setup, at: Instant, t: Tables, scored: Scored): Offer {
    var c := scored.1;
    var d := DowngradeToFit(c.requestedCeilingPaise, MerchantRemaining(s.world, t, c.windowId),
                            CustomerRemaining(s.world, t, c.customerId, c.windowId));
    if d < c.requestedCeilingPaise then
      var bps := EffectiveBps(d, c.item.amountPaise);
      Offer(bps, ScoreNow(s, t, c, bps, at), true)
    else
      Offer(c.request.maxIncentiveBps, scored.0, false)
  }

  function AttemptOne(s: Setup, at: Instant, k: Contest, scored: Scored): Contest {
    if k.winner.Some? then k else
      var c := scored.1;
      var t := Touch(s.world, k.tables, c.customerId, c.windowId);
      var offer := OfferFor(s, at, t, scored);
      if offer.downgraded && offer.score <= 0.0 then
        var merchant := MerchantRemaining(s.world, t, c.windowId);
        var own := CustomerRemaining(s.world, t, c.customerId, c.windowId);
        var reason := if merchant <= own then MerchantMarginExhausted else CustomerMarginExhausted;
        k.(tables := t, denials := k.denials[c.item.riskId := (reason, NextWindowStart(c.windowId))])
      else
        var (result, t') := IssueGrant(s.world, t, c, offer.bps, at);
        match result
        case GrantIssued(grant) => k.(tables := t', winner := Some(Winner(c, grant, offer.bps, offer.score)))
        case BudgetDenial(reason, next) => k.(tables := t', denials := k.denials[c.item.riskId := (reason, next)])
  }

  function AttemptAll(s: Setup, at: Instant, k: Contest, ranked: seq<Scored>): Contest
    decreases |ranked|
  {
    if ranked == [] then k else AttemptAll(s, at, AttemptOne(s, at, k, ranked[0]), ranked[1..])
  }

  // ---- The others ----

  function GrantOf(w: Winner): Outcome {
    Outcome(w.candidate, Granted, None, None, Some(w.grant), Some(w.score), None, Some(w.effectiveBps))
  }

  function LossOf(k: Contest, scored: Scored): Outcome {
    var c := scored.1;
    var (reason, next) := if c.item.riskId in k.denials then k.denials[c.item.riskId]
                          else (LostToHigherExpectedNet, NextWindowStart(c.windowId));
    DeferredOrDenied(c, reason, next, Some(scored.0))
  }

  predicate IsWinner(k: Contest, c: Candidate) {
    k.winner.Some? && c.item.riskId == k.winner.value.candidate.item.riskId
  }

  /** Everyone but the winner, in rank order; exhausted deferrals mark the ledger as they go. */
  function Losers(k: Contest, t: Tables, outcomes: seq<Outcome>, ranked: seq<Scored>): (seq<Outcome>, Tables)
    decreases |ranked|
  {
    if ranked == [] then (outcomes, t)
    else if IsWinner(k, ranked[0].1) then Losers(k, t, outcomes, ranked[1..])
    else Losers(k, AfterDeferral(t, ranked[0].1), outcomes + [LossOf(k, ranked[0])], ranked[1..])
  }

  /** Ranks the admitted, lets them contest the slot, and settles everyone's outcome. */
  function Settle(s: Setup, at: Instant, a: Admission): (seq<Outcome>, Tables) {
    var ranked := Sort(a.admitted, RankOrder(s));
    var k := AttemptAll(s, at, Contest(a.tables, None, map[]), ranked);
    Losers(k, k.tables, a.outcomes + (if k.winner.Some? then [GrantOf(k.winner.value)] else []), ranked)
  }

  function CustomerRound(s: Setup, at: Instant, t: Tables, outcomes: seq<Outcome>, cands: seq<Candidate>)
    : (seq<Outcome>, Tables)
  {
    var a := AdmitAll(s, at, Admission(t, outcomes, []), cands);
    if a.admitted == [] then (a.outcomes, a.tables) else Settle(s, at, a)
  }

  function AllocateFor(
    s: Setup, at: Instant, t: Tables, outcomes: seq<Outcome>, cands: seq<Candidate>, customers: seq<CustomerId>)
    : (seq<Outcome>, Tables)
    decreases |customers|
  {
    if customers == [] then (outcomes, t) else
      var (outcomes', t') := CustomerRound(s, at, t, outcomes, CandidatesOf(cands, customers[0]));
      AllocateFor(s, at, t', outcomes', cands, customers[1..])
  }

  function AllocateWindow(s: Setup, at: Instant, t: Tables, cands: seq<Candidate>): (seq<Outcome>, Tables) {
    AllocateFor(s, at, t, [], cands, Customers(cands))
  }
}
