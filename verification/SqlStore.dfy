/**
 * Issuance and the grant lifecycle against the relational store (sampark/budget/issuance.py,
 * sampark/budget/postgres_ledger.py), as the database it leaves behind.
 *
 * A pool row exists from the first grant issued in its window, or from being seeded.  A denial rolls
 * the transaction back.  Row identifiers derived from (merchant, window) and (customer, window) are
 * those pairs; the merchant is fixed.
 */
module SqlStore {
  import opened Clock
  import opened Contracts
  import opened Ledger
  import opened Margin
  import opened Wrappers

  datatype GrantRow = GrantRow(requestId: RequestId, grant: Grant, budgetWindow: Window)

  datatype RiskRow = RiskRow(item: RiskItem, customerId: CustomerId)

  datatype Db = Db(
    riskItems: seq<RiskRow>,
    requests: map<RequestId, GrantRequest>,
    grants: seq<GrantRow>,
    claims: seq<Claim>,
    budgetWindows: map<Window, Pool>,
    customerMargins: map<(CustomerId, Window), Pool>)

  /** The risk items an evaluation is limited to; None is the unscoped query. */
  type Scope = Option<set<RiskId>>

  datatype SqlError = UnknownGrantId | IllegalMove | CheckViolation

  // ---- Queries ----

  function SumAmounts(rows: seq<RiskRow>, customer: CustomerId, scope: Scope): int {
    if rows == [] then 0 else
      (if rows[0].customerId == customer && (scope.None? || rows[0].item.riskId in scope.value)
       then rows[0].item.amountPaise else 0)
      + SumAmounts(rows[1..], customer, scope)
  }

  function CustomerOf(db: Db, row: GrantRow): Option<CustomerId> {
    if row.requestId in db.requests then Some(db.requests[row.requestId].customerId) else None
  }

  /** Grants joined with their requests: one customer's, active, sent after the cutoff. */
  function CountActiveSince(requests: map<RequestId, GrantRequest>, grants: seq<GrantRow>, customer: CustomerId,
                            cutoff: Instant): nat
  {
    if grants == [] then 0 else
      var n := |grants| - 1;
      CountActiveSince(requests, grants[..n], customer, cutoff)
      + (if grants[n].requestId in requests && requests[grants[n].requestId].customerId == customer
            && CapacityConsuming(grants[n].grant.state) && grants[n].grant.sendAfter > cutoff then 1 else 0)
  }

  function FindGrantRow(grants: seq<GrantRow>, id: RequestId): (r: Option<nat>)
    ensures r.Some? ==> r.value < |grants| && grants[r.value].requestId == id
    ensures r.None? ==> forall i :: 0 <= i < |grants| ==> grants[i].requestId != id
  {
    if grants == [] then None
    else if grants[|grants| - 1].requestId == id then Some(|grants| - 1)
    else FindGrantRow(grants[..|grants| - 1], id)
  }

  function FindGrantRowById(grants: seq<GrantRow>, id: GrantId): (r: Option<nat>)
    ensures r.Some? ==> r.value < |grants| && grants[r.value].grant.grantId == id
    ensures r.None? ==> forall i :: 0 <= i < |grants| ==> grants[i].grant.grantId != id
  {
    if grants == [] then None
    else if grants[|grants| - 1].grant.grantId == id then Some(|grants| - 1)
    else FindGrantRowById(grants[..|grants| - 1], id)
  }

  /** The partial unique index: one active claim per customer and window. */
  predicate SlotTaken(db: Db, customer: CustomerId, w: Window) {
    exists i :: 0 <= i < |db.claims| && IsActiveClaim(db.claims[i], customer, w)
  }

  // ---- Pools ----

  function MerchantRow(db: Db, w: Window): Pool {
    if w in db.budgetWindows then db.budgetWindows[w] else Pool(MERCHANT_MARGIN_BUDGET_PAISE_PER_WINDOW, 0, 0)
  }

  function CustomerRow(db: Db, scope: Scope, customer: CustomerId, w: Window): Pool {
    if (customer, w) in db.customerMargins then db.customerMargins[(customer, w)]
    else Pool(CustomerMarginBudgetPaise(SumAmounts(db.riskItems, customer, scope)), 0, 0)
  }

  /** Step 3: both rows inserted if they were missing. */
  function WithRows(db: Db, scope: Scope, customer: CustomerId, w: Window): Db {
    db.(budgetWindows := db.budgetWindows[w := MerchantRow(db, w)],
        customerMargins := db.customerMargins[(customer, w) := CustomerRow(db, scope, customer, w)])
  }

  function Reserve(p: Pool, paise: int): Pool {
    p.(reservedPaise := p.reservedPaise + paise)
  }

  // ---- Issuance ----

  function WithRequest(db: Db, request: GrantRequest): Db {
    if request.requestId in db.requests then db else db.(requests := db.requests[request.requestId := request])
  }

  /** Steps 3, 4 and 6: why a transaction rolls back. */
  function SqlRefusal(db: Db, scope: Scope, c: Candidate, decisionAt: Instant): Option<ReasonCode> {
    if Remaining(MerchantRow(db, c.windowId)) <= 0 then Some(MerchantMarginExhausted)
    else if Remaining(CustomerRow(db, scope, c.customerId, c.windowId)) <= 0 then Some(CustomerMarginExhausted)
    else if CountActiveSince(db.requests, db.grants, c.customerId, decisionAt - DAY) >= CONTACT_CAP_24H
      then Some(ContactCap24h)
    else if CountActiveSince(db.requests, db.grants, c.customerId, decisionAt - 7 * DAY) >= CONTACT_CAP_7D
      then Some(ContactCap7d)
    else if SlotTaken(db, c.customerId, c.windowId) then Some(ContactSlotTaken)
    else None
  }

  function SqlCeiling(db: Db, scope: Scope, c: Candidate, bps: int): nat {
    DowngradeToFit(IncentiveCeilingPaise(c.item.amountPaise, bps), Remaining(MerchantRow(db, c.windowId)),
                   Remaining(CustomerRow(db, scope, c.customerId, c.windowId)))
  }

  /** Steps 5 to 7. */
  function SqlAdmit(db: Db, scope: Scope, c: Candidate, ceiling: nat, decisionAt: Instant): Db {
    var grant := NewGrant(c, ceiling);
    db.(grants := db.grants + [GrantRow(c.request.requestId, grant, c.windowId)],
        claims := db.claims + [Claim(grant.grantId, c.customerId, c.windowId, Reserved, decisionAt, None)],
        budgetWindows := db.budgetWindows[c.windowId := Reserve(MerchantRow(db, c.windowId), ceiling)],
        customerMargins := db.customerMargins[(c.customerId, c.windowId) :=
          Reserve(CustomerRow(db, scope, c.customerId, c.windowId), ceiling)])
  }

  function SqlIssue(db: Db, scope: Scope, c: Candidate, bps: int, decisionAt: Instant): (IssuanceResult, Db) {
    var existing := FindGrantRow(db.grants, c.request.requestId);
    if existing.Some? then
      (GrantIssued(db.grants[existing.value].grant), db)
    else
      var db1 := WithRequest(db, c.request);
      var refusal := SqlRefusal(db1, scope, c, decisionAt);
      if refusal.Some? then
        (BudgetDenial(refusal.value, NextWindowStart(c.windowId)), db)
      else
        var ceiling := SqlCeiling(db1, scope, c, bps);
        (GrantIssued(NewGrant(c, ceiling)), SqlAdmit(db1, scope, c, ceiling, decisionAt))
  }

  // ---- The preview ----

  /** remaining_margin_paise: a row that does not exist yet is read as the budget it is expected to get. */
  function SqlPreview(db: Db, scope: Scope, merchantBudget: int, customer: CustomerId, w: Window): (int, int) {
    (if w in db.budgetWindows then Remaining(db.budgetWindows[w]) else merchantBudget,
     if (customer, w) in db.customerMargins then Remaining(db.customerMargins[(customer, w)])
     else CustomerMarginBudgetPaise(SumAmounts(db.riskItems, customer, scope)))
  }

  // ---- Lifecycle: each statement commits on its own ----

  /** The table's constraints on a pool. */
  predicate WithinBudget(p: Pool) {
    p.reservedPaise >= 0 && p.spentPaise >= 0 && p.reservedPaise + p.spentPaise <= p.budgetPaise
  }

  function SetState(db: Db, i: nat, to: GrantState, at: Instant): Db
    requires i < |db.grants|
  {
    var row := db.grants[i];
    var k := FindClaimFrom(db.claims, row.grant.grantId, 0);
    db.(grants := db.grants[i := row.(grant := row.grant.(state := to))],
        claims := if k.Some? then db.claims[k.value := MoveClaim(db.claims[k.value], to, at)] else db.claims)
  }

  function BookMerchant(db: Db, w: Window, reserve: int, spend: int): Option<Db> {
    if w !in db.budgetWindows then Some(db) else
      var p := db.budgetWindows[w];
      var p' := p.(reservedPaise := p.reservedPaise + reserve, spentPaise := p.spentPaise + spend);
      if WithinBudget(p') then Some(db.(budgetWindows := db.budgetWindows[w := p'])) else None
  }

  /** An update that finds no row changes nothing. */
  function BookCustomer(db: Db, customer: CustomerId, w: Window, reserve: int, spend: int): Option<Db> {
    if (customer, w) !in db.customerMargins then Some(db) else
      var p := db.customerMargins[(customer, w)];
      var p' := p.(reservedPaise := p.reservedPaise + reserve, spentPaise := p.spentPaise + spend);
      if WithinBudget(p') then Some(db.(customerMargins := db.customerMargins[(customer, w) := p'])) else None
  }

  /** The merchant's pool is found through the grant, the customer's by the date the grant is sent on. */
  function SqlBook(db: Db, row: GrantRow, customer: CustomerId, reserve: int, spend: int): (Db, Option<SqlError>) {
    match BookMerchant(db, row.budgetWindow, reserve, spend)
    case None => (db, Some(CheckViolation))
    case Some(db1) =>
      match BookCustomer(db1, customer, WindowIdFor(row.grant.sendAfter), reserve, spend)
      case None => (db1, Some(CheckViolation))
      case Some(db2) => (db2, None)
  }

  /** execute_grant, confirm_grant, rollback_grant, expire_grant. */
  function SqlTransition(db: Db, id: GrantId, step: Step, at: Instant): (Db, Option<SqlError>) {
    var found := FindGrantRowById(db.grants, id);
    if found.None? || CustomerOf(db, db.grants[found.value]).None? then (db, Some(UnknownGrantId)) else
      var row := db.grants[found.value];
      var customer := CustomerOf(db, row).value;
      if row.grant.state == step.Target() then (db, None)
      else if !LegalTransition(row.grant.state, step.Target()) then (db, Some(IllegalMove))
      else
        var moved := SetState(db, found.value, step.Target(), at);
        match step
        case Execute => (moved, None)
        case Confirm(spend) => SqlBook(moved, row, customer, 0 - row.grant.ceilingPaise, spend)
        case _ => SqlBook(moved, row, customer, 0 - row.grant.ceilingPaise, 0)
  }
}
