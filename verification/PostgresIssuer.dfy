/**
 * The issuance transaction statement by statement (sampark/budget/issuance.py): rows are written as
 * the transaction goes, and a denial rolls every one of them back.
 */
module PostgresIssuer {
  import opened Clock
  import opened Contracts
  import opened Ledger
  import opened Margin
  import opened SqlStore
  import opened Wrappers

  class Connection {
    var db: Db

    constructor (db: Db)
      ensures this.db == db
    {
      this.db := db;
    }

    /** Inserts the pool rows that are missing and reads both, the merchant's first. */
    method LockPools(scope: Scope, customer: CustomerId, w: Window) returns (merchantRow: Pool, customerRow: Pool)
      modifies this
      ensures db == WithRows(old(db), scope, customer, w)
      ensures merchantRow == MerchantRow(old(db), w) && customerRow == CustomerRow(old(db), scope, customer, w)
    {
      if w !in db.budgetWindows {
        db := db.(budgetWindows := db.budgetWindows[w := Pool(MERCHANT_MARGIN_BUDGET_PAISE_PER_WINDOW, 0, 0)]);
      }
      merchantRow := db.budgetWindows[w];
      var atRisk := SumAmounts(db.riskItems, customer, scope);
      if (customer, w) !in db.customerMargins {
        db := db.(customerMargins :=
                  db.customerMargins[(customer, w) := Pool(CustomerMarginBudgetPaise(atRisk), 0, 0)]);
      }
      customerRow := db.customerMargins[(customer, w)];
      assert db.budgetWindows == old(db).budgetWindows[w := merchantRow];
      assert db.customerMargins == old(db).customerMargins[(customer, w) := customerRow];
    }

    /** The partial unique index over active claims. */
    method InsertClaim(claim: Claim) returns (violated: bool)
      requires CapacityConsuming(claim.state)
      modifies this
      ensures violated <==> SlotTaken(old(db), claim.customerId, claim.windowId)
      ensures db == if violated then old(db) else old(db).(claims := old(db).claims + [claim])
    {
      var i := 0;
      while i < |db.claims|
        invariant 0 <= i <= |db.claims| && db == old(db)
        invariant forall j :: 0 <= j < i ==> !IsActiveClaim(db.claims[j], claim.customerId, claim.windowId)
      {
        if IsActiveClaim(db.claims[i], claim.customerId, claim.windowId) {
          return true;
        }
        i := i + 1;
      }
      db := db.(claims := db.claims + [claim]);
      return false;
    }

    /** Steps 5 to 7, once both rows are locked.  A violated index ends the transaction. */
    method WriteGrant(ghost scope: Scope, c: Candidate, ceiling: nat, merchantRow: Pool, customerRow: Pool,
                      decisionAt: Instant)
      returns (violated: bool)
      requires merchantRow == MerchantRow(db, c.windowId)
               && customerRow == CustomerRow(db, scope, c.customerId, c.windowId)
      modifies this
      ensures violated <==> SlotTaken(old(db), c.customerId, c.windowId)
      ensures !violated ==> db == SqlAdmit(old(db), scope, c, ceiling, decisionAt)
    {
      var grant := NewGrant(c, ceiling);
      db := db.(grants := db.grants + [GrantRow(c.request.requestId, grant, c.windowId)]);
      violated := InsertClaim(Claim(grant.grantId, c.customerId, c.windowId, Reserved, decisionAt, None));
      if !violated {
        db := db.(budgetWindows := db.budgetWindows[c.windowId := Reserve(merchantRow, ceiling)]);
        db := db.(customerMargins := db.customerMargins[(c.customerId, c.windowId) := Reserve(customerRow, ceiling)]);
      }
    }

    /** One attempt: a denial, or the grant with every row that goes with it. */
    method AttemptOnce(scope: Scope, c: Candidate, bps: int, decisionAt: Instant) returns (result: IssuanceResult)
      modifies this
      ensures (result, db) == SqlIssue(old(db), scope, c, bps, decisionAt)
      ensures result.BudgetDenial? ==> db == old(db)
    {
      var begin := db;
      // (1)
      var existing := FindGrantRow(db.grants, c.request.requestId);
      if existing.Some? {
        return GrantIssued(db.grants[existing.value].grant);
      }
      // (2)
      if c.request.requestId !in db.requests {
        db := db.(requests := db.requests[c.request.requestId := c.request]);
      }
      // (3)
      RowsChangeNothing(db, scope, c, decisionAt);
      var merchantRow, customerRow := LockPools(scope, c.customerId, c.windowId);
      // (4)
      var reason := CheckLimits(merchantRow, customerRow, c.customerId, decisionAt);
      if reason.Some? {
        db := begin;
        return BudgetDenial(reason.value, NextWindowStart(c.windowId));
      }
      // (5) to (7)
      var ceiling := DowngradeToFit(IncentiveCeilingPaise(c.item.amountPaise, bps), Remaining(merchantRow),
                                    Remaining(customerRow));
      var violated := WriteGrant(scope, c, ceiling, merchantRow, customerRow, decisionAt);
      if violated {
        db := begin;
        return BudgetDenial(ContactSlotTaken, NextWindowStart(c.windowId));
      }
      result := GrantIssued(NewGrant(c, ceiling));
    }

    /** Steps 3 and 4: the margin and the authoritative contact counts. */
    method CheckLimits(merchantRow: Pool, customerRow: Pool, customer: CustomerId, decisionAt: Instant)
      returns (reason: Option<ReasonCode>)
      ensures reason == if Remaining(merchantRow) <= 0 then Some(MerchantMarginExhausted)
                        else if Remaining(customerRow) <= 0 then Some(CustomerMarginExhausted)
                        else if CountActiveSince(db.requests, db.grants, customer, decisionAt - DAY) >= CONTACT_CAP_24H
                          then Some(ContactCap24h)
                        else if CountActiveSince(db.requests, db.grants, customer, decisionAt - 7 * DAY)
                          >= CONTACT_CAP_7D then Some(ContactCap7d)
                        else None
    {
      if Remaining(merchantRow) <= 0 {
        return Some(MerchantMarginExhausted);
      }
      if Remaining(customerRow) <= 0 {
        return Some(CustomerMarginExhausted);
      }
      if CountActiveSince(db.requests, db.grants, customer, decisionAt - DAY) >= CONTACT_CAP_24H {
        return Some(ContactCap24h);
      }
      if CountActiveSince(db.requests, db.grants, customer, decisionAt - 7 * DAY) >= CONTACT_CAP_7D {
        return Some(ContactCap7d);
      }
      return None;
    }

    /** A lifecycle call.  An error part-way leaves the statements before it in effect. */
    method Transition(id: GrantId, step: Step, at: Instant) returns (error: Option<SqlError>)
      modifies this
      ensures (db, error) == SqlTransition(old(db), id, step, at)
    {
      var found := FindGrantRowById(db.grants, id);
      if found.None? {
        return Some(UnknownGrantId);
      }
      var row := db.grants[found.value];
      var customer := CustomerOf(db, row);
      if customer.None? {
        return Some(UnknownGrantId);
      }
      if row.grant.state == step.Target() {
        return None;
      }
      if !LegalTransition(row.grant.state, step.Target()) {
        return Some(IllegalMove);
      }
      db := SetState(db, found.value, step.Target(), at);
      if step.Execute? {
        return None;
      }
      var spend := if step.Confirm? then step.spendPaise else 0;
      var merchant := BookMerchant(db, row.budgetWindow, 0 - row.grant.ceilingPaise, spend);
      if merchant.None? {
        return Some(CheckViolation);
      }
      db := merchant.value;
      var own := BookCustomer(db, customer.value, WindowIdFor(row.grant.sendAfter), 0 - row.grant.ceilingPaise, spend);
      if own.None? {
        return Some(CheckViolation);
      }
      db := own.value;
      return None;
    }
  }

  /** Creating the rows early is not visible in what is then decided or written. */
  lemma RowsChangeNothing(db: Db, scope: Scope, c: Candidate, at: Instant)
    ensures var rows := WithRows(db, scope, c.customerId, c.windowId);
            && MerchantRow(rows, c.windowId) == MerchantRow(db, c.windowId)
            && CustomerRow(rows, scope, c.customerId, c.windowId) == CustomerRow(db, scope, c.customerId, c.windowId)
            && SqlRefusal(rows, scope, c, at) == SqlRefusal(db, scope, c, at)
            && (forall ceiling: nat :: SqlAdmit(rows, scope, c, ceiling, at) == SqlAdmit(db, scope, c, ceiling, at))
  {
    var rows := WithRows(db, scope, c.customerId, c.windowId);
    forall ceiling: nat ensures SqlAdmit(rows, scope, c, ceiling, at) == SqlAdmit(db, scope, c, ceiling, at) {
      var a, b := SqlAdmit(rows, scope, c, ceiling, at), SqlAdmit(db, scope, c, ceiling, at);
      assert a.budgetWindows == b.budgetWindows;
      assert a.customerMargins == b.customerMargins;
    }
  }
}
