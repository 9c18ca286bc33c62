/**
 * The program as it ships: the calibrated recovery prior and channel costs (sampark/policy/soft,
 * sampark/allocator/calibrated.py), the agents with their registered scopes (agents/, sim/arm_b.py),
 * and what a run takes in when two of them have something to ask for.
 */
module Shipped {
  import opened Allocator
  import opened Clock
  import opened Contracts
  import Fatigue
  import opened Margin
  import opened Scopes = Registry
  import opened Sorting
  import opened WindowLoop
  import opened Wrappers

  // ---- The frozen terms ----

  /** First-contact recovery rate, with the documented fallbacks. */
  function PBase(source: string, cause: string): real {
    if source == "abandoned_checkout" then
      if cause == "intent_lost" then 0.2825520833333333
      else if cause == "price_hesitation" then 0.2576530612244898
      else 0.27791563275434245
    else if source == "failed_payment" then
      if cause == "authentication_drop" then 0.29108910891089107
      else if cause == "insufficient_funds" then 0.23722627737226276
      else if cause == "issuer_downtime" then 0.2736625514403292
      else 0.2741812642802742
    else if source == "mandate_failure" then
      if cause == "authentication_drop" then 0.28289473684210525
      else if cause == "insufficient_funds" then 0.2861736334405145
      else if cause == "issuer_downtime" then 0.3079470198675497
      else if cause == "mandate_expired" then 0.32792207792207795
      else 0.30462020360219266
    else if source == "overdue_invoice" then
      if cause == "disputed" then 0.27071823204419887
      else if cause == "intent_lost" then 0.26878612716763006
      else if cause == "price_hesitation" then 0.3147632311977716
      else 0.28545780969479356
    else Fatigue.P_BASE_MEAN
  }

  function PHat(source: string, cause: string, n: nat): real {
    PBase(source, cause) * Fatigue.Pow(Fatigue.DECAY, n)
  }

  /** Every channel with a registered template has a cost. */
  function ChannelCost(channel: string): int {
    if channel == "sms" then 20 else if channel == "whatsapp" then 40 else if channel == "voice" then 400 else 0
  }

  /** The terms of the program's own score. */
  ghost predicate ShippedTerms(terms: Terms, decayFuture: real) {
    && Fatigue.ShippedDecay(decayFuture)
    && (forall source, cause, n: nat :: terms.pHat(source, cause, n) == PHat(source, cause, n))
    && (forall channel :: terms.channelCost(channel) == ChannelCost(channel))
    && forall n: nat, open :: terms.fatigueCost(n, open) == Fatigue.FatigueCost(Fatigue.Shipped(decayFuture), n, open)
  }

  /** There are such terms. */
  lemma ShippedTermsExist(decayFuture: real)
    requires Fatigue.ShippedDecay(decayFuture)
    ensures exists terms :: ShippedTerms(terms, decayFuture)
  {
    var forward := Fatigue.Shipped(decayFuture);
    var terms := Terms((source: string, cause: string, n: nat) => PHat(source, cause, n),
                       (channel: string) => ChannelCost(channel),
                       (n: nat, open: seq<int>) => Fatigue.FatigueCost(forward, n, open));
    assert ShippedTerms(terms, decayFuture);
  }

  const CART := "abandoned_checkout"
  const PAYMENT := "failed_payment"
  const UNKNOWN := "unknown"

  /** What a first contact about a cart or a payment costs and brings. */
  lemma FirstContact(terms: Terms, decayFuture: real)
    requires ShippedTerms(terms, decayFuture)
    ensures terms.pHat(CART, UNKNOWN, 0) == 0.27791563275434245 && terms.channelCost("whatsapp") == 40
    ensures terms.pHat(PAYMENT, UNKNOWN, 0) == 0.2741812642802742 && terms.channelCost("sms") == 20
  {
    assert |CART| == 18 && |PAYMENT| == 14 && |UNKNOWN| == 7;
    assert Fatigue.Pow(Fatigue.DECAY, 0) == 1.0;
  }

  /** The program's score of a first contact, in its own numbers. */
  function FirstScore(terms: Terms, decayFuture: real, c: Candidate, bps: int, open: seq<int>): real {
    var gross := terms.pHat(c.item.source, c.item.rootCause, 0) * c.item.amountPaise as real;
    gross - terms.channelCost(c.request.channel) as real - gross * bps as real / 10_000.0
    - Fatigue.FatigueCost(Fatigue.Shipped(decayFuture), 0, open)
  }

  lemma ScoreOfFirstContact(terms: Terms, decayFuture: real, c: Candidate, bps: int, open: seq<int>)
    requires ShippedTerms(terms, decayFuture)
    ensures ExpectedNet(terms, c, bps, 0, open) == FirstScore(terms, decayFuture, c, bps, open)
  {
    hide PHat, Fatigue.FatigueCost;
    assert terms.fatigueCost(0, open) == Fatigue.FatigueCost(Fatigue.Shipped(decayFuture), 0, open);
    hide ShippedTerms;
  }

  // ---- The agents ----

  /** The agents' identifiers in alphabetical order. */
  const CART_RECOVERY: AgentId := 1
  const MANDATE_RECOVERY: AgentId := 2
  const PAYMENT_RETRY: AgentId := 3
  const RECEIVABLES: AgentId := 4

  function Active(channel: string, intent: string, source: string, maxIncentiveBps: nat): Agent {
    Agent(true, CapabilityScope({channel}, {intent}, {source}, maxIncentiveBps))
  }

  function Agents(): map<AgentId, Agent> {
    map[CART_RECOVERY := Active("whatsapp", "cart_recovery", "abandoned_checkout", 500),
        MANDATE_RECOVERY := Active("whatsapp", "mandate_retry", "mandate_failure", 200),
        PAYMENT_RETRY := Active("sms", "payment_retry", "failed_payment", 0),
        RECEIVABLES := Active("voice", "receivables_followup", "overdue_invoice", 0)]
  }

  function CartRecovery(item: RiskItem, customer: CustomerId): Action {
    Action(CART_RECOVERY, item.riskId, customer, "whatsapp", "cart_recovery", 500, item.detectedAt + 6 * HOUR)
  }

  function PaymentRetry(item: RiskItem, customer: CustomerId): Action {
    Action(PAYMENT_RETRY, item.riskId, customer, "sms", "payment_retry", 0, item.detectedAt + 2 * HOUR)
  }

  /** What an agent that is responsible for the item asks for. */
  ghost predicate AskedByAgent(a: Action, item: RiskItem) {
    || (item.source == CART && a == CartRecovery(item, a.customerId))
    || (item.source == PAYMENT && a == PaymentRetry(item, a.customerId))
  }

  // ---- What a run takes in ----

  /**
   * A run of the program's agents over these risk items, nobody opted out, every request signed.  The
   * request identifiers do not matter; these requests have those of their risk items.
   */
  ghost predicate Runs(cfg: RunSetup, setup: Setup, owned: RiskItems, actions: seq<Action>) {
    && cfg.setup == setup && cfg.optOuts == map[]
    && cfg.registry.agents == Agents() && cfg.registry.riskItems == owned
    && (forall a :: a in actions ==>
          cfg.registry.signed(ToGrantRequest(cfg, a)) && cfg.requestIdFor(a.agentId, a.riskId) == a.riskId)
  }

  lemma RunsExist(setup: Setup, owned: RiskItems, actions: seq<Action>)
    ensures exists cfg :: Runs(cfg, setup, owned, actions)
  {
    var registry := Registry(Agents(), (request: GrantRequest) => true, owned);
    var cfg := RunSetup(setup, map[], registry, (agent: AgentId, risk: RiskId) => risk);
    assert Runs(cfg, setup, owned, actions);
  }

  /** The candidate an action becomes. */
  function CandidateFrom(a: Action, item: RiskItem): Candidate {
    var at := AdjustedArrival(a);
    Candidate(GrantRequest(a.riskId, a.agentId, a.customerId, a.riskId, a.intent, a.channel, a.incentiveBps,
                           a.scheduledAt),
              item, a.customerId, WindowIdFor(at), at, IncentiveCeilingPaise(item.amountPaise, a.incentiveBps), 0)
  }

  function CandidatesFrom(actions: seq<Action>, owned: RiskItems): seq<Candidate>
    requires forall a :: a in actions ==> a.riskId in owned
  {
    if actions == [] then [] else
      var n := |actions| - 1;
      CandidatesFrom(actions[..n], owned) + [CandidateFrom(actions[n], owned[actions[n].riskId].0)]
  }

  /** The agents ask about the items of their customers. */
  ghost predicate AskedAboutOwned(actions: seq<Action>, owned: RiskItems) {
    forall a :: a in actions ==>
      a.riskId in owned && owned[a.riskId].1 == a.customerId && AskedByAgent(a, owned[a.riskId].0)
  }

  lemma OwnScopeAllows(cfg: RunSetup, setup: Setup, owned: RiskItems, actions: seq<Action>, a: Action)
    requires Runs(cfg, setup, owned, actions) && AskedAboutOwned(actions, owned) && a in actions
    ensures EvaluateScope(cfg.registry, ToGrantRequest(cfg, a)).None?
  {
    assert Agents()[CART_RECOVERY] == Active("whatsapp", "cart_recovery", "abandoned_checkout", 500);
    assert Agents()[PAYMENT_RETRY] == Active("sms", "payment_retry", "failed_payment", 0);
    hide Agents;
  }

  /** All of them pass the scope check and become candidates, in the order they are taken in. */
  lemma {:induction false} AgentsAreTakenIn(cfg: RunSetup, setup: Setup, owned: RiskItems, actions: seq<Action>)
    requires Runs(cfg, setup, owned, actions) && AskedAboutOwned(actions, owned)
    ensures TakeIn(cfg, actions) == Ok(Intake([], CandidatesFrom(actions, owned)))
  {
    if actions != [] {
      var n := |actions| - 1;
      AgentsAreTakenIn(cfg, setup, owned, actions[..n]);
      OwnScopeAllows(cfg, setup, owned, actions, actions[n]);
      hide EvaluateScope, Agents;
    }
  }

  lemma {:induction false} AllArrive(actions: seq<Action>, w: Window)
    requires forall a :: a in actions ==> ArrivalWindow(a) == w
    ensures ArrivingIn(actions, w) == actions
  {
    if actions != [] {
      AllArrive(actions[1..], w);
    }
  }

  /** Actions of one day, listed as the run sorts them, are what that day takes in. */
  lemma TakenInOnTheDay(cfg: RunSetup, setup: Setup, owned: RiskItems, actions: seq<Action>, w: Window)
    requires Runs(cfg, setup, owned, actions) && AskedAboutOwned(actions, owned)
    requires Sorted(actions, ActionLe) && forall a :: a in actions ==> ArrivalWindow(a) == w
    ensures TakeIn(cfg, NewActions(actions, w)) == Ok(Intake([], CandidatesFrom(actions, owned)))
  {
    AllArrive(actions, w);
    ActionLeIsTotal();
    SortedIsFixed(actions, ActionLe);
    AgentsAreTakenIn(cfg, setup, owned, actions);
  }

  lemma ActionLeIsTotal()
    ensures TotalPreorder(ActionLe)
  {
  }
}
