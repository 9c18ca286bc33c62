/**
 * What the gates in front of the allocator decide (sampark/registry/scope.py,
 * sampark/mediation/hard_filter.py, sampark/policy/hard): which facts turn a request away, which of
 * them is told, and what is worth waiting for.
 */
module PolicyMeaning {
  import opened Clock
  import opened Contracts
  import opened Counting
  import opened HardFilter
  import opened Ledger
  import opened LedgerMeaning
  import opened Scopes = Registry
  import opened Shipped
  import opened Wrappers

  // ---- Scope ----

  /** What a request can fail on, in the order it is looked at. */
  const SCOPE_CHECKS: seq<ScopeReason> := [
    UnknownAgent, InvalidSignature, AgentRevoked, UnknownRiskItem, CustomerRiskItemMismatch, ChannelNotAllowed,
    IntentNotAllowed, RiskSourceNotAllowed, IncentiveCeilingExceeded]

  ghost predicate Registered(reg: Registry, id: AgentId, agent: Agent) {
    id in reg.agents && reg.agents[id] == agent
  }

  ghost predicate Recorded(reg: Registry, id: RiskId, item: RiskItem, owner: CustomerId) {
    id in reg.riskItems && reg.riskItems[id] == (item, owner)
  }

  /** What each refusal says about the request, for a registered agent and a recorded item where it needs them. */
  ghost predicate Fails(reg: Registry, r: GrantRequest, reason: ScopeReason) {
    match reason
    case UnknownAgent => forall agent :: !Registered(reg, r.agentId, agent)
    case InvalidSignature => !reg.signed(r)
    case AgentRevoked => exists agent :: Registered(reg, r.agentId, agent) && !agent.active
    case UnknownRiskItem => forall item, owner :: !Recorded(reg, r.riskId, item, owner)
    case CustomerRiskItemMismatch => exists item, owner :: Recorded(reg, r.riskId, item, owner) && owner != r.customerId
    case ChannelNotAllowed => exists agent :: Registered(reg, r.agentId, agent) && r.channel !in agent.scope.channels
    case IntentNotAllowed => exists agent :: Registered(reg, r.agentId, agent) && r.intent !in agent.scope.intents
    case RiskSourceNotAllowed =>
      exists agent, item, owner ::
        Registered(reg, r.agentId, agent) && Recorded(reg, r.riskId, item, owner)
        && item.source !in agent.scope.riskSources
    case IncentiveCeilingExceeded =>
      exists agent :: Registered(reg, r.agentId, agent) && r.maxIncentiveBps > agent.scope.maxIncentiveBps
  }

  /** The facts about a registered agent and a recorded item, read off the registry. */
  lemma ChecksMean(reg: Registry, r: GrantRequest)
    ensures Fails(reg, r, UnknownAgent) <==> r.agentId !in reg.agents
    ensures Fails(reg, r, UnknownRiskItem) <==> r.riskId !in reg.riskItems
    ensures r.agentId in reg.agents ==>
              var agent := reg.agents[r.agentId];
              && (Fails(reg, r, AgentRevoked) <==> !agent.active)
              && (Fails(reg, r, ChannelNotAllowed) <==> r.channel !in agent.scope.channels)
              && (Fails(reg, r, IntentNotAllowed) <==> r.intent !in agent.scope.intents)
              && (Fails(reg, r, IncentiveCeilingExceeded) <==> r.maxIncentiveBps > agent.scope.maxIncentiveBps)
    ensures r.riskId in reg.riskItems ==>
              (Fails(reg, r, CustomerRiskItemMismatch) <==> reg.riskItems[r.riskId].1 != r.customerId)
  {
    if r.agentId in reg.agents {
      assert Registered(reg, r.agentId, reg.agents[r.agentId]);
    }
    if r.riskId in reg.riskItems {
      var record := reg.riskItems[r.riskId];
      assert Recorded(reg, r.riskId, record.0, record.1);
    }
  }

  lemma SourceCheckMeans(reg: Registry, r: GrantRequest)
    requires r.agentId in reg.agents && r.riskId in reg.riskItems
    ensures Fails(reg, r, RiskSourceNotAllowed)
            <==> reg.riskItems[r.riskId].0.source !in reg.agents[r.agentId].scope.riskSources
  {
    var record := reg.riskItems[r.riskId];
    assert Registered(reg, r.agentId, reg.agents[r.agentId]);
    assert Recorded(reg, r.riskId, record.0, record.1);
  }

  /** Where a check comes in the order. */
  ghost function Rank(reason: ScopeReason): (i: nat)
    ensures i < |SCOPE_CHECKS| && SCOPE_CHECKS[i] == reason
  {
    match reason
    case UnknownAgent => 0
    case InvalidSignature => 1
    case AgentRevoked => 2
    case UnknownRiskItem => 3
    case CustomerRiskItemMismatch => 4
    case ChannelNotAllowed => 5
    case IntentNotAllowed => 6
    case RiskSourceNotAllowed => 7
    case IncentiveCeilingExceeded => 8
  }

  lemma CheckAt(i: nat)
    requires i < |SCOPE_CHECKS|
    ensures Rank(SCOPE_CHECKS[i]) == i
  {
  }

  /** Nothing fails before what a request is refused for, and that does. */
  lemma EarlierChecksPass(reg: Registry, r: GrantRequest, reason: ScopeReason)
    ensures match EvaluateScope(reg, r)
            case None => !Fails(reg, r, reason)
            case Some(told) => (Rank(reason) < Rank(told) ==> !Fails(reg, r, reason)) && Fails(reg, r, told)
  {
    ChecksMean(reg, r);
    if r.agentId in reg.agents && r.riskId in reg.riskItems {
      SourceCheckMeans(reg, r);
    }
    assert Fails(reg, r, InvalidSignature) <==> !reg.signed(r);
    hide Fails;
  }

  /** A request is refused for the first check it fails, and verified if it fails none of the nine. */
  lemma ScopeMeans(reg: Registry, r: GrantRequest)
    ensures FirstOf(SCOPE_CHECKS, (reason: ScopeReason) => Fails(reg, r, reason), EvaluateScope(reg, r))
  {
    var denial := EvaluateScope(reg, r);
    EarlierChecksPass(reg, r, UnknownAgent);
    hide Fails, Rank, SCOPE_CHECKS, EvaluateScope;
    forall j | 0 <= j < |SCOPE_CHECKS|
      ensures denial.None? || j < Rank(denial.value) ==> !Fails(reg, r, SCOPE_CHECKS[j])
    {
      CheckAt(j);
      EarlierChecksPass(reg, r, SCOPE_CHECKS[j]);
    }
  }

  // ---- The hard rules ----

  /** What stands in the way for good, in the order it is looked at. */
  const PERMANENT: seq<ReasonCode> := [OptOutActive, DltTemplateUnavailable, InterlockDisputeOpen]

  /** What only today stands in the way. */
  const PASSING: seq<ReasonCode> := [InterlockActiveGrantInWindow, QuietHours, ContactCap24h, ContactCap7d]

  /** The message templates on file. */
  const TEMPLATES: set<(string, string)> := {
    ("payment_retry", "sms"), ("cart_recovery", "whatsapp"), ("mandate_retry", "whatsapp"),
    ("receivables_followup", "voice")}

  ghost predicate Objects(world: World, optOuts: OptOuts, t: Tables, c: Candidate, at: Instant, rule: ReasonCode) {
    var nine := WindowStartFor(WindowIdFor(c.sendAfter));
    match rule
    case OptOutActive => c.customerId in optOuts && c.request.channel in optOuts[c.customerId]
    case DltTemplateUnavailable => (c.request.intent, c.request.channel) !in TEMPLATES
    case InterlockDisputeOpen =>
      c.request.maxIncentiveBps > 0 && c.customerId in world.riskItems
      && exists item: RiskItem :: item in world.riskItems[c.customerId] && item.rootCause == "disputed"
    case InterlockActiveGrantInWindow => SlotIsHeld(t, c.customerId, c.windowId)
    case QuietHours => !(nine <= c.sendAfter < nine + 12 * HOUR)
    case ContactCap24h => ContactsSince(t, c.customerId, at - 24 * HOUR) >= 1
    case ContactCap7d => ContactsSince(t, c.customerId, at - 7 * 24 * HOUR) >= 2
    case _ => false
  }

  /** The first 09:00 from then on. */
  ghost predicate IsNextNine(t: Instant, nine: Instant) {
    && t <= nine && (exists w :: nine == WindowStartFor(w))
    && forall w :: WindowStartFor(w) >= t ==> nine <= WindowStartFor(w)
  }

  lemma DisputeMeans(world: World, customer: CustomerId)
    ensures DisputeOpen(world, customer)
            <==> customer in world.riskItems
                 && exists item: RiskItem :: item in world.riskItems[customer] && item.rootCause == "disputed"
  {
    var items := RiskItemsFor(world, customer);
    if i :| 0 <= i < |items| && items[i].rootCause == "disputed" {
      assert items[i] in items;
    }
  }

  lemma QuietMeans(t: Instant)
    ensures var nine := WindowStartFor(WindowIdFor(t));
            NextQuietHoursBoundary(t).Ok? <==> !(nine <= t < nine + 12 * HOUR)
    ensures NextQuietHoursBoundary(t).Ok? ==> IsNextNine(t, NextQuietHoursBoundary(t).value)
  {
    SendableBand(t);
    BoundaryIsNextWindowStart(t, 0);
    if NextQuietHoursBoundary(t).Ok? {
      forall w | WindowStartFor(w) >= t ensures NextQuietHoursBoundary(t).value <= WindowStartFor(w) {
        BoundaryIsNextWindowStart(t, w);
      }
    }
  }

  /** Both cases told apart by what objects: for good, for today, or nothing. */
  lemma RulesMean(world: World, optOuts: OptOuts, t: Tables, c: Candidate, at: Instant)
    ensures Objects(world, optOuts, t, c, at, DltTemplateUnavailable)
            <==> !TemplateRegistered(c.request.intent, c.request.channel)
    ensures Objects(world, optOuts, t, c, at, InterlockDisputeOpen)
            <==> c.request.maxIncentiveBps > 0 && DisputeOpen(world, c.customerId)
    ensures Objects(world, optOuts, t, c, at, InterlockActiveGrantInWindow)
            <==> HasActiveClaim(t, c.customerId, c.windowId)
    ensures Objects(world, optOuts, t, c, at, QuietHours) <==> NextQuietHoursBoundary(c.sendAfter).Ok?
    ensures var (c24, c7) := RollingContactCounts(t, c.customerId, at);
            && (Objects(world, optOuts, t, c, at, ContactCap24h) <==> c24 >= 1)
            && (Objects(world, optOuts, t, c, at, ContactCap7d) <==> c7 >= 2)
  {
    DisputeMeans(world, c.customerId);
    ActiveClaimMeans(t, c.customerId, c.windowId);
    QuietMeans(c.sendAfter);
    RollingCountsAre(t, c.customerId, at);
    hide DisputeOpen, HasActiveClaim, NextQuietHoursBoundary, RollingContactCounts, ContactsSince, SlotIsHeld;
  }

  /**
   * The hard rules as a whole: a candidate is denied for the first permanent objection there is; with
   * none, deferred for the first passing one, until 09:00 of the next window or, at night, until the
   * next 09:00; and admitted if nothing objects.
   */
  lemma VerdictMeans(world: World, optOuts: OptOuts, t: Tables, c: Candidate, at: Instant)
    ensures var v, objects := EvaluateAll(world, optOuts, t, c, at),
                              (rule: ReasonCode) => Objects(world, optOuts, t, c, at, rule);
            && FirstOf(PERMANENT, objects, if v.Deny? then Some(v.reason) else None)
            && (!v.Deny? ==> FirstOf(PASSING, objects, if v.Defer? then Some(v.reason) else None))
            && (v.Defer? && v.reason != QuietHours ==> v.nextEligibleAt == WindowStartFor(c.windowId + 1))
            && (v.Defer? && v.reason == QuietHours ==> IsNextNine(c.sendAfter, v.nextEligibleAt))
  {
    RulesMean(world, optOuts, t, c, at);
    QuietMeans(c.sendAfter);
    var v := EvaluateAll(world, optOuts, t, c, at);
    hide DisputeOpen, HasActiveClaim, NextQuietHoursBoundary, RollingContactCounts, TemplateRegistered, IsNextNine;
    if v.Deny? {
      var i := if v.reason == OptOutActive then 0 else if v.reason == DltTemplateUnavailable then 1 else 2;
      assert PERMANENT[i] == v.reason;
    } else if v.Defer? {
      var i := if v.reason == InterlockActiveGrantInWindow then 0 else if v.reason == QuietHours then 1
               else if v.reason == ContactCap24h then 2 else 3;
      assert PASSING[i] == v.reason;
    }
  }

  /**
   * Every agent of the program asks through a template on file, on the one channel it is registered for;
   * only carts and mandates may give anything away, at most five and two percent.
   */
  lemma AgentsHaveTemplates(id: AgentId, intent: string, channel: string)
    requires id in Agents()
    requires intent in Agents()[id].scope.intents && channel in Agents()[id].scope.channels
    ensures (intent, channel) in TEMPLATES && Agents()[id].active && ChannelCost(channel) > 0
    ensures Agents()[id].scope.maxIncentiveBps == if intent == "cart_recovery" then 500
                                                  else if intent == "mandate_retry" then 200 else 0
  {
  }

  /** A cart is asked about six hours after it was left, a payment two hours after it failed. */
  lemma AgentsWait(item: RiskItem, customer: CustomerId)
    ensures CartRecovery(item, customer).scheduledAt - item.detectedAt == 21_600_000_000
    ensures PaymentRetry(item, customer).scheduledAt - item.detectedAt == 7_200_000_000
  {
  }

  /** A first contact recovers between 23 and 33 in a hundred items, whatever the source and the cause. */
  lemma RatesAreModest(source: string, cause: string)
    ensures 0.23 < PBase(source, cause) < 0.33
  {
  }
}
