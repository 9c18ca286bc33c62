/**
 * Agents, their capability scopes, and scope evaluation (sampark/registry/scope.py).  Signature
 * verification is a predicate the registry is given.
 */
module Registry {
  import opened Contracts
  import opened Wrappers

  datatype CapabilityScope = CapabilityScope(
    channels: set<string>, intents: set<string>, riskSources: set<string>, maxIncentiveBps: nat)

  datatype Agent = Agent(active: bool, scope: CapabilityScope)

  datatype ScopeReason =
    | UnknownAgent
    | InvalidSignature
    | AgentRevoked
    | UnknownRiskItem
    | CustomerRiskItemMismatch
    | ChannelNotAllowed
    | IntentNotAllowed
    | RiskSourceNotAllowed
    | IncentiveCeilingExceeded

  /** A risk item's authoritative record and its owner. */
  type RiskItems = map<RiskId, (RiskItem, CustomerId)>

  datatype Registry = Registry(agents: map<AgentId, Agent>, signed: GrantRequest -> bool, riskItems: RiskItems)

  /** The nine scope checks in order; None verifies the request. */
  function EvaluateScope(reg: Registry, r: GrantRequest): Option<ScopeReason> {
    if r.agentId !in reg.agents then Some(UnknownAgent)
    else if !reg.signed(r) then Some(InvalidSignature)
    else if !reg.agents[r.agentId].active then Some(AgentRevoked)
    else if r.riskId !in reg.riskItems then Some(UnknownRiskItem)
    else
      var scope, record := reg.agents[r.agentId].scope, reg.riskItems[r.riskId];
      if record.1 != r.customerId then Some(CustomerRiskItemMismatch)
      else if r.channel !in scope.channels then Some(ChannelNotAllowed)
      else if r.intent !in scope.intents then Some(IntentNotAllowed)
      else if record.0.source !in scope.riskSources then Some(RiskSourceNotAllowed)
      else if r.maxIncentiveBps > scope.maxIncentiveBps then Some(IncentiveCeilingExceeded)
      else None
  }
}
