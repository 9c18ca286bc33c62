/**
 * The ordered hard-policy chain and the filter in front of the allocator
 * (sampark/policy/hard/, sampark/mediation/hard_filter.py).
 *
 * Rules whose fact is never available (consent, RTO flag, refund, fraud review, mandate
 * cancellation) let every candidate pass and are not listed.
 */
module HardFilter {
  import opened Allocator
  import opened Clock
  import opened Contracts
  import opened Ledger
  import opened Wrappers

  /** A customer's opted-out channels; the in-memory ledger holds none. */
  type OptOuts = map<CustomerId, set<string>>

  datatype Verdict = Admissible | Deny(reason: ReasonCode) | Defer(reason: ReasonCode, nextEligibleAt: Instant)

  predicate HasOptedOut(optOuts: OptOuts, c: Candidate) {
    c.customerId in optOuts && c.request.channel in optOuts[c.customerId]
  }

  predicate TemplateRegistered(intent: string, channel: string) {
    (intent, channel) in {
      ("payment_retry", "sms"), ("cart_recovery", "whatsapp"),
      ("mandate_retry", "whatsapp"), ("receivables_followup", "voice")}
  }

  predicate DisputeOpen(world: World, customer: CustomerId) {
    exists i :: 0 <= i < |RiskItemsFor(world, customer)| && RiskItemsFor(world, customer)[i].rootCause == "disputed"
  }

  /** The first rule that objects, in order of descending permanence. */
  function EvaluateAll(world: World, optOuts: OptOuts, t: Tables, c: Candidate, decisionAt: Instant): Verdict {
    var (c24, c7) := RollingContactCounts(t, c.customerId, decisionAt);
    var next := NextWindowStart(c.windowId);
    if HasOptedOut(optOuts, c) then Deny(OptOutActive)
    else if !TemplateRegistered(c.request.intent, c.request.channel) then Deny(DltTemplateUnavailable)
    else if c.request.maxIncentiveBps > 0 && DisputeOpen(world, c.customerId) then Deny(InterlockDisputeOpen)
    else if HasActiveClaim(t, c.customerId, c.windowId) then Defer(InterlockActiveGrantInWindow, next)
    else if NextQuietHoursBoundary(c.sendAfter).Ok? then Defer(QuietHours, NextQuietHoursBoundary(c.sendAfter).value)
    else if c24 >= CONTACT_CAP_24H then Defer(ContactCap24h, next)
    else if c7 >= CONTACT_CAP_7D then Defer(ContactCap7d, next)
    else Admissible
  }

  datatype Filtered = Filtered(tables: Tables, survivors: seq<Candidate>, outcomes: seq<Outcome>)

  function FilterOne(world: World, optOuts: OptOuts, at: Instant, f: Filtered, c: Candidate): Filtered {
    match EvaluateAll(world, optOuts, f.tables, c, at)
    case Admissible => f.(survivors := f.survivors + [c])
    case Deny(reason) =>
      f.(tables := MarkDenied(f.tables, c.item.riskId), outcomes := f.outcomes + [DenialOf(c, reason, None)])
    case Defer(reason, next) =>
      f.(tables := AfterDeferral(f.tables, c), outcomes := f.outcomes + [DeferredOrDenied(c, reason, next, None)])
  }

  function FilterAll(world: World, optOuts: OptOuts, at: Instant, f: Filtered, cands: seq<Candidate>): Filtered
    decreases |cands|
  {
    if cands == [] then f else FilterAll(world, optOuts, at, FilterOne(world, optOuts, at, f, cands[0]), cands[1..])
  }

  /** The candidates in the order the filter and the allocator visit them. */
  function InOrder(cands: seq<Candidate>, customers: seq<CustomerId>): seq<Candidate> {
    if customers == [] then [] else CandidatesOf(cands, customers[0]) + InOrder(cands, customers[1..])
  }

  function FilterCandidates(world: World, optOuts: OptOuts, at: Instant, t: Tables, cands: seq<Candidate>): Filtered {
    FilterAll(world, optOuts, at, Filtered(t, [], []), InOrder(cands, Customers(cands)))
  }

  /** filter_and_allocate: the filter's own outcomes come first. */
  function FilterAndAllocate(s: Setup, optOuts: OptOuts, at: Instant, t: Tables, cands: seq<Candidate>)
    : (seq<Outcome>, Tables)
  {
    var f := FilterCandidates(s.world, optOuts, at, t, cands);
    var (outcomes, t') := AllocateWindow(s, at, f.tables, f.survivors);
    (f.outcomes + outcomes, t')
  }
}
