/**
 * The entities the program exchanges (sampark/contracts, sampark/allocator/candidate.py).
 *
 * Customer, risk, agent and request identifiers are only compared for equality and order, so they
 * are integers here.  A grant's identifier is uuid5(NS_GRANT, request_id), taken as injective: a
 * constructor applied to the request's identifier.
 */
module Contracts {
  import opened Clock
  import opened Margin
  import opened Wrappers

  type CustomerId = int
  type RiskId = int
  type AgentId = int
  type RequestId = int

  datatype GrantId = Uuid5Grant(requestId: RequestId)

  type Positive = n: int | n > 0 witness 1

  datatype GrantState = Reserved | Executing | Confirmed | RolledBack | Expired

  datatype RiskItem = RiskItem(
    riskId: RiskId, source: string, amountPaise: Positive, rootCause: string, detectedAt: Instant)

  datatype GrantRequest = GrantRequest(
    requestId: RequestId, agentId: AgentId, customerId: CustomerId, riskId: RiskId,
    intent: string, channel: string, maxIncentiveBps: nat, issuedAt: Instant)

  datatype Grant = Grant(
    grantId: GrantId, channel: string, ceilingPaise: nat, sendAfter: Instant, expiresAt: Instant, state: GrantState)

  datatype Candidate = Candidate(
    request: GrantRequest, item: RiskItem, customerId: CustomerId, windowId: Window,
    sendAfter: Instant, requestedCeilingPaise: int, windowsDeferred: nat)

  /** The ValueErrors of Candidate's construction. */
  datatype CandidateError = RiskItemMismatch | IncentiveTooLarge

  const GRANT_TTL: int := 2 * HOUR
  const CONTACT_CAP_24H := 1
  const CONTACT_CAP_7D := 2
  const MAX_DEFERRAL_WINDOWS := 7
  const AGING_BONUS_PAISE := 11_070
  const MERCHANT_MARGIN_BUDGET_PAISE_PER_WINDOW := 3_679_105

  datatype ReasonCode =
    | OptOutActive
    | DltTemplateUnavailable
    | InterlockDisputeOpen
    | InterlockActiveGrantInWindow
    | QuietHours
    | ContactCap24h
    | ContactCap7d
    | ContactSlotTaken
    | MerchantMarginExhausted
    | CustomerMarginExhausted
    | NegativeExpectedNet
    | LostToHigherExpectedNet
    | DeferralExhausted

  /** The states that occupy a contact slot and count towards the rolling caps. */
  predicate CapacityConsuming(s: GrantState) {
    s.Reserved? || s.Executing? || s.Confirmed?
  }

  predicate Releasing(s: GrantState) {
    s.RolledBack? || s.Expired?
  }

  /** The states that hold their ceiling reserved in both margin pools. */
  predicate HoldsReservation(s: GrantState) {
    s.Reserved? || s.Executing?
  }

  predicate ValidCandidate(c: Candidate) {
    && c.item.riskId == c.request.riskId
    && c.request.maxIncentiveBps < BPS
  }

  function BuildCandidate(request: GrantRequest, item: RiskItem, customerId: CustomerId, sendAfter: Instant)
    : Result<Candidate, CandidateError>
  {
    if item.riskId != request.riskId then Err(RiskItemMismatch)
    else if request.maxIncentiveBps >= BPS then Err(IncentiveTooLarge)
    else Ok(Candidate(request, item, customerId, WindowIdFor(sendAfter), sendAfter,
                      IncentiveCeilingPaise(item.amountPaise, request.maxIncentiveBps), 0))
  }

  function Aged(c: Candidate): Candidate {
    c.(windowsDeferred := c.windowsDeferred + 1)
  }

  function Rescheduled(c: Candidate, windowId: Window, sendAfter: Instant): Candidate {
    c.(windowId := windowId, sendAfter := sendAfter)
  }
}
