/**
 * The in-memory ledger and issuer as the program holds them (sampark/budget/store.py): an object
 * whose fields every call updates in place.  Each method is tied to the ledger values of module
 * Ledger, about which the guarantees are proved.
 */
module Store {
  import opened Clock
  import opened Contracts
  import Ledger
  import opened Margin
  import opened Wrappers

  class InMemoryMediationLedger {
    const world: Ledger.World
    var requests: map<RequestId, GrantRequest>
    var grants: seq<Ledger.GrantRecord>
    var claims: seq<Ledger.Claim>
    var merchantPools: map<Window, Ledger.Pool>
    var customerPools: map<(CustomerId, Window), Ledger.Pool>
    var deniedRiskIds: set<RiskId>

    /** The whole state, as one value. */
    function View(): Ledger.Tables
      reads this
    {
      Ledger.Tables(requests, grants, claims, merchantPools, customerPools, deniedRiskIds)
    }

    constructor (world: Ledger.World)
      ensures View() == Ledger.EMPTY && this.world == world
    {
      this.world := world;
      requests, grants, claims, merchantPools, customerPools, deniedRiskIds := map[], [], [], map[], map[], {};
    }

    method RollingContactCounts(customer: CustomerId, decisionAt: Instant) returns (c24: nat, c7: nat)
      ensures (c24, c7) == Ledger.RollingContactCounts(View(), customer, decisionAt)
    {
      c24, c7 := 0, 0;
      var i := 0;
      while i < |grants|
        invariant 0 <= i <= |grants|
        invariant c24 == Ledger.CountSince(grants[..i], customer, decisionAt - DAY)
        invariant c7 == Ledger.CountSince(grants[..i], customer, decisionAt - 7 * DAY)
      {
        assert grants[..i + 1][..i] == grants[..i];
        var r := grants[i];
        if r.customerId == customer && CapacityConsuming(r.grant.state) {
          if r.grant.sendAfter > decisionAt - DAY {
            c24 := c24 + 1;
          }
          if r.grant.sendAfter > decisionAt - 7 * DAY {
            c7 := c7 + 1;
          }
        }
        i := i + 1;
      }
      assert grants[..i] == grants;
    }

    method ContactsMade(customer: CustomerId, before: Instant) returns (count: nat)
      ensures count == Ledger.ContactsMade(View(), customer, before)
    {
      count := 0;
      var i := 0;
      while i < |grants|
        invariant 0 <= i <= |grants|
        invariant count == Ledger.CountContacted(grants[..i], customer, before)
      {
        assert grants[..i + 1][..i] == grants[..i];
        var g := grants[i].grant;
        if grants[i].customerId == customer && (g.state.Executing? || g.state.Confirmed?) && g.sendAfter < before {
          count := count + 1;
        }
        i := i + 1;
      }
      assert grants[..i] == grants;
    }

    method HasActiveClaim(customer: CustomerId, windowId: Window) returns (active: bool)
      ensures active <==> Ledger.HasActiveClaim(View(), customer, windowId)
    {
      var i := 0;
      while i < |claims|
        invariant 0 <= i <= |claims|
        invariant forall j :: 0 <= j < i ==> !Ledger.IsActiveClaim(claims[j], customer, windowId)
      {
        if claims[i].customerId == customer && claims[i].windowId == windowId && CapacityConsuming(claims[i].state) {
          return true;
        }
        i := i + 1;
      }
      return false;
    }

    /** The amounts of the customer's other open risk items, in the order the items are held. */
    method OtherOpenAmounts(customer: CustomerId, decisionAt: Instant, excluded: RiskId) returns (amounts: seq<int>)
      ensures amounts == Ledger.OtherOpenAmounts(world, View(), customer, decisionAt, excluded)
    {
      var items := Ledger.RiskItemsFor(world, customer);
      amounts := [];
      var i := 0;
      assert items[0..] == items;
      while i < |items|
        invariant 0 <= i <= |items|
        invariant amounts + Ledger.OpenAmounts(View(), items[i..], customer, decisionAt, excluded)
                  == Ledger.OtherOpenAmounts(world, View(), customer, decisionAt, excluded)
      {
        assert items[i..][0] == items[i] && items[i..][1..] == items[i + 1..];
        if Ledger.IsOpen(View(), customer, decisionAt, excluded, items[i]) {
          amounts := amounts + [items[i].amountPaise as int];
        }
        i := i + 1;
      }
    }

    method MarkTerminallyDenied(risk: RiskId)
      modifies this`deniedRiskIds
      ensures View() == Ledger.MarkDenied(old(View()), risk)
    {
      deniedRiskIds := deniedRiskIds + {risk};
    }

    /** Creates the merchant's and the customer's pool of a window if this is their first use. */
    method EnsurePools(customer: CustomerId, windowId: Window)
      modifies this`merchantPools, this`customerPools
      ensures View() == Ledger.Touch(world, old(View()), customer, windowId)
    {
      if windowId !in merchantPools {
        merchantPools := merchantPools[windowId := Ledger.FreshMerchantPool(world)];
      }
      if (customer, windowId) !in customerPools {
        customerPools := customerPools[(customer, windowId) := Ledger.FreshCustomerPool(world, customer)];
      }
      assert merchantPools == old(merchantPools)[windowId := merchantPools[windowId]];
      assert customerPools == old(customerPools)[(customer, windowId) := customerPools[(customer, windowId)]];
    }

    method RemainingMarginPaise(customer: CustomerId, windowId: Window) returns (merchant: int, own: int)
      modifies this`merchantPools, this`customerPools
      ensures View() == Ledger.Touch(world, old(View()), customer, windowId)
      ensures merchant == Ledger.MerchantRemaining(world, old(View()), windowId)
      ensures own == Ledger.CustomerRemaining(world, old(View()), customer, windowId)
    {
      EnsurePools(customer, windowId);
      merchant := Ledger.Remaining(merchantPools[windowId]);
      own := Ledger.Remaining(customerPools[(customer, windowId)]);
    }

    /** Moves a grant and its claim to a new state. */
    method UpdateGrantState(i: nat, newState: GrantState, at: Instant)
      requires i < |grants|
      modifies this`grants, this`claims
      ensures View() == Ledger.UpdateGrantState(old(View()), i, newState, at)
    {
      var record := grants[i];
      grants := grants[i := record.(grant := record.grant.(state := newState))];
      var k := Ledger.FindClaimFrom(claims, record.grant.grantId, 0);
      if k.Some? {
        claims := claims[k.value := claims[k.value].(state := newState)];
        if Releasing(newState) {
          claims := claims[k.value := claims[k.value].(releasedAt := Some(at))];
        }
      }
    }

    /** Changes the running totals of both pools of a grant's window. */
    method Book(customer: CustomerId, windowId: Window, reserve: int, spend: int)
      modifies this`merchantPools, this`customerPools
      ensures View() == Ledger.Book(world, old(View()), customer, windowId, reserve, spend)
    {
      EnsurePools(customer, windowId);
      var m := merchantPools[windowId];
      merchantPools := merchantPools[windowId :=
        m.(reservedPaise := m.reservedPaise + reserve, spentPaise := m.spentPaise + spend)];
      var c := customerPools[(customer, windowId)];
      customerPools := customerPools[(customer, windowId) :=
        c.(reservedPaise := c.reservedPaise + reserve, spentPaise := c.spentPaise + spend)];
    }

    /** execute, confirm, rollback and expire (sampark/mediation/lifecycle.py). */
    method Transition(id: GrantId, step: Ledger.Step, at: Instant) returns (error: Option<Ledger.LifecycleError>)
      modifies this
      ensures var r := Ledger.Transition(world, old(View()), id, step, at);
              if r.Ok? then error == None && View() == r.value else error == Some(r.error) && View() == old(View())
    {
      var found := Ledger.FindGrant(grants, id);
      if found.None? {
        return Some(Ledger.UnknownGrant);
      }
      var record := grants[found.value];
      if record.grant.state == step.Target() {
        return None;
      }
      if !Ledger.LegalTransition(record.grant.state, step.Target()) {
        return Some(Ledger.IllegalTransition);
      }
      UpdateGrantState(found.value, step.Target(), at);
      match step {
        case Execute =>
        case Confirm(spend) => Book(record.customerId, record.windowId, 0 - record.grant.ceilingPaise, spend);
        case Rollback => Book(record.customerId, record.windowId, 0 - record.grant.ceilingPaise, 0);
        case Expire => Book(record.customerId, record.windowId, 0 - record.grant.ceilingPaise, 0);
      }
      return None;
    }

    /** The eight steps of InMemoryGrantIssuer.issue_grant. */
    method IssueGrant(c: Candidate, effectiveBps: int, decisionAt: Instant) returns (result: Ledger.IssuanceResult)
      modifies this
      ensures (result, View()) == Ledger.IssueGrant(world, old(View()), c, effectiveBps, decisionAt)
    {
      // (1) Idempotency.
      var existing := Ledger.FindRequest(grants, c.request.requestId);
      if existing.Some? {
        return Ledger.GrantIssued(grants[existing.value].grant);
      }
      // (2) The signed request is kept.
      if c.request.requestId !in requests {
        requests := requests[c.request.requestId := c.request];
      }
      // (3) The merchant's pool, then the customer's.
      var merchantRemaining, customerRemaining := RemainingMarginPaise(c.customerId, c.windowId);
      ghost var ready := View();
      var ceiling := DowngradeToFit(IncentiveCeilingPaise(c.item.amountPaise, effectiveBps), merchantRemaining,
                                    customerRemaining);
      var nextEligible := NextWindowStart(c.windowId);
      if merchantRemaining <= 0 {
        return Ledger.BudgetDenial(MerchantMarginExhausted, nextEligible);
      }
      if customerRemaining <= 0 {
        return Ledger.BudgetDenial(CustomerMarginExhausted, nextEligible);
      }
      // (4) The rolling contact caps.
      var c24, c7 := RollingContactCounts(c.customerId, decisionAt);
      if c24 >= CONTACT_CAP_24H {
        return Ledger.BudgetDenial(ContactCap24h, nextEligible);
      }
      if c7 >= CONTACT_CAP_7D {
        return Ledger.BudgetDenial(ContactCap7d, nextEligible);
      }
      // (5), (6) The contended write: the grant, then its claim.
      var taken := HasActiveClaim(c.customerId, c.windowId);
      if taken {
        return Ledger.BudgetDenial(ContactSlotTaken, nextEligible);
      }
      var grant := Ledger.NewGrant(c, ceiling);
      grants := grants + [Ledger.GrantRecord(grant, c.request.requestId, c.customerId, c.windowId)];
      claims := claims + [Ledger.Claim(grant.grantId, c.customerId, c.windowId, Reserved, decisionAt, None)];
      // (7) Reserve the margin in both pools.
      Book(c.customerId, c.windowId, ceiling, 0);
      result := Ledger.GrantIssued(grant);
    }
  }
}
