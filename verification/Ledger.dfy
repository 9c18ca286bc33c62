/**
 * The mediation ledger as a value (sampark/budget/store.py, sampark/mediation/lifecycle.py): what
 * each query answers and which ledger each operation leaves behind.
 *
 * Grant records and claims are kept in issue order, the order of the source's dicts and lists.
 */
module Ledger {
  import opened Clock
  import opened Contracts
  import opened Margin
  import opened Wrappers

  datatype Pool = Pool(budgetPaise: int, reservedPaise: int, spentPaise: int)

  datatype Claim = Claim(
    grantId: GrantId, customerId: CustomerId, windowId: Window, state: GrantState,
    claimedAt: Instant, releasedAt: Option<Instant>)

  datatype GrantRecord = GrantRecord(grant: Grant, requestId: RequestId, customerId: CustomerId, windowId: Window)

  datatype Tables = Tables(
    requests: map<RequestId, GrantRequest>,
    grants: seq<GrantRecord>,
    claims: seq<Claim>,
    merchantPools: map<Window, Pool>,
    customerPools: map<(CustomerId, Window), Pool>,
    deniedRiskIds: set<RiskId>)

  /** What a run is configured with and never changes. */
  datatype World = World(riskItems: map<CustomerId, seq<RiskItem>>, merchantBudgetPaise: int)

  datatype IssuanceResult = GrantIssued(grant: Grant) | BudgetDenial(reason: ReasonCode, nextEligibleAt: Instant)

  datatype LifecycleError = UnknownGrant | IllegalTransition

  const EMPTY := Tables(map[], [], [], map[], map[], {})

  // ---- Queries ----

  function RiskItemsFor(world: World, customer: CustomerId): seq<RiskItem> {
    if customer in world.riskItems then world.riskItems[customer] else []
  }

  function FindGrantFrom(grants: seq<GrantRecord>, id: GrantId, from: nat): (r: Option<nat>)
    requires from <= |grants|
    ensures r.Some? ==> from <= r.value < |grants| && grants[r.value].grant.grantId == id
    ensures r.None? ==> forall i :: from <= i < |grants| ==> grants[i].grant.grantId != id
    decreases |grants| - from
  {
    if from == |grants| then None
    else if grants[from].grant.grantId == id then Some(from)
    else FindGrantFrom(grants, id, from + 1)
  }

  function FindGrant(grants: seq<GrantRecord>, id: GrantId): (r: Option<nat>)
    ensures r.Some? ==> r.value < |grants| && grants[r.value].grant.grantId == id
    ensures r.None? ==> forall i :: 0 <= i < |grants| ==> grants[i].grant.grantId != id
  {
    FindGrantFrom(grants, id, 0)
  }

  function FindRequestFrom(grants: seq<GrantRecord>, id: RequestId, from: nat): (r: Option<nat>)
    requires from <= |grants|
    ensures r.Some? ==> from <= r.value < |grants| && grants[r.value].requestId == id
    ensures r.None? ==> forall i :: from <= i < |grants| ==> grants[i].requestId != id
    decreases |grants| - from
  {
    if from == |grants| then None
    else if grants[from].requestId == id then Some(from)
    else FindRequestFrom(grants, id, from + 1)
  }

  function FindRequest(grants: seq<GrantRecord>, id: RequestId): (r: Option<nat>)
    ensures r.Some? ==> r.value < |grants| && grants[r.value].requestId == id
    ensures r.None? ==> forall i :: 0 <= i < |grants| ==> grants[i].requestId != id
  {
    FindRequestFrom(grants, id, 0)
  }

  function FindClaimFrom(claims: seq<Claim>, id: GrantId, from: nat): (r: Option<nat>)
    requires from <= |claims|
    ensures r.Some? ==> from <= r.value < |claims| && claims[r.value].grantId == id
    ensures r.None? ==> forall i :: from <= i < |claims| ==> claims[i].grantId != id
    decreases |claims| - from
  {
    if from == |claims| then None
    else if claims[from].grantId == id then Some(from)
    else FindClaimFrom(claims, id, from + 1)
  }

  predicate CountsTowardsCap(r: GrantRecord, customer: CustomerId, cutoff: Instant) {
    r.customerId == customer && CapacityConsuming(r.grant.state) && r.grant.sendAfter > cutoff
  }

  /** Contacts of a customer, reserved or made, sent strictly after `cutoff`. */
  function CountSince(grants: seq<GrantRecord>, customer: CustomerId, cutoff: Instant): nat {
    if grants == [] then 0 else
      var n := |grants| - 1;
      CountSince(grants[..n], customer, cutoff) + (if CountsTowardsCap(grants[n], customer, cutoff) then 1 else 0)
  }

  function RollingContactCounts(t: Tables, customer: CustomerId, decisionAt: Instant): (nat, nat) {
    (CountSince(t.grants, customer, decisionAt - DAY), CountSince(t.grants, customer, decisionAt - 7 * DAY))
  }

  predicate WasContacted(r: GrantRecord, customer: CustomerId, before: Instant) {
    r.customerId == customer && (r.grant.state.Executing? || r.grant.state.Confirmed?) && r.grant.sendAfter < before
  }

  function CountContacted(grants: seq<GrantRecord>, customer: CustomerId, before: Instant): nat {
    if grants == [] then 0 else
      var n := |grants| - 1;
      CountContacted(grants[..n], customer, before) + (if WasContacted(grants[n], customer, before) then 1 else 0)
  }

  function ContactsMade(t: Tables, customer: CustomerId, before: Instant): nat {
    CountContacted(t.grants, customer, before)
  }

  predicate IsActiveClaim(c: Claim, customer: CustomerId, windowId: Window) {
    c.customerId == customer && c.windowId == windowId && CapacityConsuming(c.state)
  }

  predicate HasActiveClaim(t: Tables, customer: CustomerId, windowId: Window) {
    exists i :: 0 <= i < |t.claims| && IsActiveClaim(t.claims[i], customer, windowId)
  }

  /** Whether a confirmed grant of the customer resolved this risk item. */
  predicate ResolvedByGrant(t: Tables, customer: CustomerId, risk: RiskId) {
    exists i :: 0 <= i < |t.grants|
      && t.grants[i].customerId == customer && t.grants[i].grant.state.Confirmed?
      && t.grants[i].requestId in t.requests && t.requests[t.grants[i].requestId].riskId == risk
  }

  predicate IsOpen(t: Tables, customer: CustomerId, decisionAt: Instant, excluded: RiskId, item: RiskItem) {
    && item.riskId != excluded
    && !ResolvedByGrant(t, customer, item.riskId)
    && item.riskId !in t.deniedRiskIds
    && item.detectedAt <= decisionAt
  }

  function OpenAmounts(t: Tables, items: seq<RiskItem>, customer: CustomerId, decisionAt: Instant, excluded: RiskId)
    : seq<int>
  {
    if items == [] then [] else
      (if IsOpen(t, customer, decisionAt, excluded, items[0]) then [items[0].amountPaise as int] else [])
      + OpenAmounts(t, items[1..], customer, decisionAt, excluded)
  }

  /** The amounts of the customer's other unresolved risk items. */
  function OtherOpenAmounts(world: World, t: Tables, customer: CustomerId, decisionAt: Instant, excluded: RiskId)
    : seq<int>
  {
    OpenAmounts(t, RiskItemsFor(world, customer), customer, decisionAt, excluded)
  }

  function TotalAmount(items: seq<RiskItem>): int {
    if items == [] then 0 else items[0].amountPaise + TotalAmount(items[1..])
  }

  // ---- Pools, created on first touch ----

  function FreshMerchantPool(world: World): Pool {
    Pool(world.merchantBudgetPaise, 0, 0)
  }

  function FreshCustomerPool(world: World, customer: CustomerId): Pool {
    Pool(CustomerMarginBudgetPaise(TotalAmount(RiskItemsFor(world, customer))), 0, 0)
  }

  function MerchantPool(world: World, t: Tables, windowId: Window): Pool {
    if windowId in t.merchantPools then t.merchantPools[windowId] else FreshMerchantPool(world)
  }

  function CustomerPool(world: World, t: Tables, customer: CustomerId, windowId: Window): Pool {
    if (customer, windowId) in t.customerPools then t.customerPools[(customer, windowId)]
    else FreshCustomerPool(world, customer)
  }

  function SetPools(t: Tables, customer: CustomerId, windowId: Window, merchant: Pool, own: Pool): Tables {
    t.(merchantPools := t.merchantPools[windowId := merchant],
       customerPools := t.customerPools[(customer, windowId) := own])
  }

  /** The ledger once both pools of a (customer, window) exist. */
  function Touch(world: World, t: Tables, customer: CustomerId, windowId: Window): Tables {
    SetPools(t, customer, windowId, MerchantPool(world, t, windowId), CustomerPool(world, t, customer, windowId))
  }

  function Remaining(p: Pool): int {
    RemainingPaise(p.budgetPaise, p.reservedPaise, p.spentPaise)
  }

  function MerchantRemaining(world: World, t: Tables, windowId: Window): int {
    Remaining(MerchantPool(world, t, windowId))
  }

  function CustomerRemaining(world: World, t: Tables, customer: CustomerId, windowId: Window): int {
    Remaining(CustomerPool(world, t, customer, windowId))
  }

  /** Adds to the reserved and spent margin of both pools of a (customer, window). */
  function Book(world: World, t: Tables, customer: CustomerId, windowId: Window, reserve: int, spend: int): Tables {
    var m := MerchantPool(world, t, windowId);
    var c := CustomerPool(world, t, customer, windowId);
    SetPools(t, customer, windowId,
             m.(reservedPaise := m.reservedPaise + reserve, spentPaise := m.spentPaise + spend),
             c.(reservedPaise := c.reservedPaise + reserve, spentPaise := c.spentPaise + spend))
  }

  // ---- Issuance ----

  /** Why issuance refuses a candidate.  The candidate itself plays no part beyond its customer and window. */
  function Refusal(world: World, t: Tables, customer: CustomerId, windowId: Window, decisionAt: Instant)
    : Option<ReasonCode>
  {
    var (c24, c7) := RollingContactCounts(t, customer, decisionAt);
    if MerchantRemaining(world, t, windowId) <= 0 then Some(MerchantMarginExhausted)
    else if CustomerRemaining(world, t, customer, windowId) <= 0 then Some(CustomerMarginExhausted)
    else if c24 >= CONTACT_CAP_24H then Some(ContactCap24h)
    else if c7 >= CONTACT_CAP_7D then Some(ContactCap7d)
    else if HasActiveClaim(t, customer, windowId) then Some(ContactSlotTaken)
    else None
  }

  function CeilingFor(world: World, t: Tables, c: Candidate, effectiveBps: int): nat {
    DowngradeToFit(IncentiveCeilingPaise(c.item.amountPaise, effectiveBps),
                   MerchantRemaining(world, t, c.windowId), CustomerRemaining(world, t, c.customerId, c.windowId))
  }

  function NewGrant(c: Candidate, ceilingPaise: nat): Grant {
    Grant(Uuid5Grant(c.request.requestId), c.request.channel, ceilingPaise, c.sendAfter, c.sendAfter + GRANT_TTL,
          Reserved)
  }

  /** Records the grant and its claim and reserves the ceiling in both pools. */
  function Admit(world: World, t: Tables, c: Candidate, ceilingPaise: nat, decisionAt: Instant): Tables {
    var grant := NewGrant(c, ceilingPaise);
    var withGrant := t.(
      grants := t.grants + [GrantRecord(grant, c.request.requestId, c.customerId, c.windowId)],
      claims := t.claims + [Claim(grant.grantId, c.customerId, c.windowId, Reserved, decisionAt, None)]);
    Book(world, withGrant, c.customerId, c.windowId, ceilingPaise, 0)
  }

  /** Step 2 of issuance: the request is kept unless its identifier is already known. */
  function Remember(t: Tables, request: GrantRequest): Tables {
    if request.requestId in t.requests then t else t.(requests := t.requests[request.requestId := request])
  }

  function IssueGrant(world: World, t: Tables, c: Candidate, effectiveBps: int, decisionAt: Instant)
    : (IssuanceResult, Tables)
  {
    var existing := FindRequest(t.grants, c.request.requestId);
    if existing.Some? then
      (GrantIssued(t.grants[existing.value].grant), t)
    else
      var t1 := Touch(world, Remember(t, c.request), c.customerId, c.windowId);
      var refusal := Refusal(world, t1, c.customerId, c.windowId, decisionAt);
      if refusal.Some? then
        (BudgetDenial(refusal.value, NextWindowStart(c.windowId)), t1)
      else
        var ceiling := CeilingFor(world, t1, c, effectiveBps);
        (GrantIssued(NewGrant(c, ceiling)), Admit(world, t1, c, ceiling, decisionAt))
  }

  // ---- Lifecycle ----

  predicate LegalTransition(from: GrantState, to: GrantState) {
    match from
    case Reserved => to.Executing? || to.RolledBack? || to.Expired?
    case Executing => to.Confirmed? || to.RolledBack?
    case _ => false
  }

  function MoveClaim(c: Claim, to: GrantState, at: Instant): Claim {
    c.(state := to, releasedAt := if Releasing(to) then Some(at) else c.releasedAt)
  }

  /** Moves the i-th grant, and the claim made for it, to a new state. */
  function UpdateGrantState(t: Tables, i: nat, to: GrantState, at: Instant): Tables
    requires i < |t.grants|
  {
    var r := t.grants[i];
    var k := FindClaimFrom(t.claims, r.grant.grantId, 0);
    t.(grants := t.grants[i := r.(grant := r.grant.(state := to))],
       claims := if k.Some? then t.claims[k.value := MoveClaim(t.claims[k.value], to, at)] else t.claims)
  }

  /** execute, confirm (at the spend actually incurred), rollback and expire. */
  datatype Step = Execute | Confirm(spendPaise: int) | Rollback | Expire {
    function Target(): GrantState {
      match this
      case Execute => Executing
      case Confirm(_) => Confirmed
      case Rollback => RolledBack
      case Expire => Expired
    }
  }

  /** What a transition does to the pools: nothing, a settlement, or a full release. */
  function BookStep(world: World, t: Tables, r: GrantRecord, step: Step): Tables {
    match step
    case Execute => t
    case Confirm(spend) => Book(world, t, r.customerId, r.windowId, 0 - r.grant.ceilingPaise, spend)
    case _ => Book(world, t, r.customerId, r.windowId, 0 - r.grant.ceilingPaise, 0)
  }

  /** A lifecycle call.  Repeating a step that has already been taken changes nothing. */
  function Transition(world: World, t: Tables, id: GrantId, step: Step, at: Instant): Result<Tables, LifecycleError> {
    var found := FindGrant(t.grants, id);
    if found.None? then Err(UnknownGrant) else
      var r := t.grants[found.value];
      if r.grant.state == step.Target() then Ok(t)
      else if !LegalTransition(r.grant.state, step.Target()) then Err(IllegalTransition)
      else Ok(BookStep(world, UpdateGrantState(t, found.value, step.Target(), at), r, step))
  }

  function MarkDenied(t: Tables, risk: RiskId): Tables {
    t.(deniedRiskIds := t.deniedRiskIds + {risk})
  }
}
