/**
 * The in-memory ledger and the relational one simulate each other: from related states issuance
 * gives the same answer, lifecycle calls do the same, and the states stay related.
 */
module Simulation {
  import opened Clock
  import opened Contracts
  import opened Ledger
  import opened LedgerInvariants
  import opened Margin
  import opened SqlStore
  import opened Wrappers

  ghost predicate SameGrant(r: GrantRecord, row: GrantRow, requests: map<RequestId, GrantRequest>) {
    && r.grant == row.grant && r.requestId == row.requestId && r.windowId == row.budgetWindow
    && r.requestId in requests && requests[r.requestId].customerId == r.customerId
    && r.windowId == WindowIdFor(r.grant.sendAfter)
  }

  ghost predicate PoolsExist(r: GrantRecord, db: Db) {
    r.windowId in db.budgetWindows && (r.customerId, r.windowId) in db.customerMargins
  }

  /** The same grants and claims row by row, and the same pool behind every row and every missing row. */
  ghost predicate Related(world: World, t: Tables, db: Db) {
    && |t.grants| == |db.grants|
       && (forall i :: 0 <= i < |t.grants| ==> SameGrant(t.grants[i], db.grants[i], db.requests))
    && (forall i :: 0 <= i < |t.grants| ==> PoolsExist(t.grants[i], db))
    && t.claims == db.claims
    && (forall id :: id in db.requests ==> id in t.requests && t.requests[id] == db.requests[id])
    && (forall w :: MerchantPool(world, t, w) == if w in db.budgetWindows then db.budgetWindows[w]
          else FreshMerchantPool(world))
    && (forall c, w :: CustomerPool(world, t, c, w)
                       == if (c, w) in db.customerMargins then db.customerMargins[(c, w)]
                       else FreshCustomerPool(world, c))
  }

  /** The query over the shared table sums up exactly the items the run's own world holds for the customer. */
  ghost predicate SameBudget(world: World, db: Db, scope: Scope, customer: CustomerId) {
    SumAmounts(db.riskItems, customer, scope) == TotalAmount(RiskItemsFor(world, customer))
  }

  /** The row the issuer would insert carries the budget the run is configured with. */
  ghost predicate BudgetReady(world: World, db: Db, w: Window) {
    w in db.budgetWindows || world.merchantBudgetPaise == MERCHANT_MARGIN_BUDGET_PAISE_PER_WINDOW
  }

  ghost predicate Presented(t: Tables, c: Candidate) {
    && c.request.customerId == c.customerId && c.windowId == WindowIdFor(c.sendAfter)
    && (c.request.requestId in t.requests ==> t.requests[c.request.requestId] == c.request)
  }

  // ---- Queries agree ----

  lemma {:induction false} CountsAgree(grants: seq<GrantRecord>, rows: seq<GrantRow>,
                                       requests: map<RequestId, GrantRequest>, customer: CustomerId, cutoff: Instant)
    requires |grants| == |rows| && forall i :: 0 <= i < |grants| ==> SameGrant(grants[i], rows[i], requests)
    ensures CountActiveSince(requests, rows, customer, cutoff) == CountSince(grants, customer, cutoff)
  {
    if grants != [] {
      var n := |grants| - 1;
      assert SameGrant(grants[n], rows[n], requests);
      CountsAgree(grants[..n], rows[..n], requests, customer, cutoff);
    }
  }

  lemma FoundAlike(world: World, t: Tables, db: Db, id: RequestId)
    requires Related(world, t, db) && Coherent(t)
    ensures FindGrantRow(db.grants, id) == FindRequest(t.grants, id)
  {
    var a, b := FindGrantRow(db.grants, id), FindRequest(t.grants, id);
    assert forall i :: 0 <= i < |t.grants| ==> SameGrant(t.grants[i], db.grants[i], db.requests);
    if a.Some? {
      assert t.grants[a.value].requestId == id;
    }
    if b.Some? {
      assert db.grants[b.value].requestId == id;
    }
  }

  lemma FoundByIdAlike(world: World, t: Tables, db: Db, id: GrantId)
    requires Related(world, t, db) && Coherent(t)
    ensures FindGrantRowById(db.grants, id) == FindGrant(t.grants, id)
  {
    var a, b := FindGrantRowById(db.grants, id), FindGrant(t.grants, id);
    assert forall i :: 0 <= i < |t.grants| ==> SameGrant(t.grants[i], db.grants[i], db.requests);
    forall i | 0 <= i < |t.grants| ensures t.grants[i].grant.grantId == Uuid5Grant(t.grants[i].requestId) {
      assert ClaimFollowsGrant(t, i);
    }
    if a.Some? {
      assert t.grants[a.value].grant.grantId == id;
    }
    if b.Some? {
      assert db.grants[b.value].grant.grantId == id;
    }
  }

  lemma RowsAgree(world: World, t: Tables, db: Db, scope: Scope, c: Candidate)
    requires Related(world, t, db) && BudgetReady(world, db, c.windowId) && SameBudget(world, db, scope, c.customerId)
    ensures MerchantRow(db, c.windowId) == MerchantPool(world, t, c.windowId)
    ensures CustomerRow(db, scope, c.customerId, c.windowId) == CustomerPool(world, t, c.customerId, c.windowId)
  {
    assert MerchantPool(world, t, c.windowId)
           == if c.windowId in db.budgetWindows then db.budgetWindows[c.windowId] else FreshMerchantPool(world);
    assert CustomerPool(world, t, c.customerId, c.windowId)
           == if (c.customerId, c.windowId) in db.customerMargins then db.customerMargins[(c.customerId, c.windowId)]
              else FreshCustomerPool(world, c.customerId);
  }

  lemma RefusalsAgree(world: World, t: Tables, db: Db, scope: Scope, c: Candidate, at: Instant)
    requires Related(world, t, db) && BudgetReady(world, db, c.windowId) && SameBudget(world, db, scope, c.customerId)
    ensures SqlRefusal(db, scope, c, at) == Refusal(world, t, c.customerId, c.windowId, at)
    ensures forall bps :: SqlCeiling(db, scope, c, bps) == CeilingFor(world, t, c, bps)
  {
    RowsAgree(world, t, db, scope, c);
    CountsAgree(t.grants, db.grants, db.requests, c.customerId, at - DAY);
    CountsAgree(t.grants, db.grants, db.requests, c.customerId, at - 7 * DAY);
  }

  // ---- Issuance ----

  lemma RequestKeepsRelated(world: World, t: Tables, db: Db, c: Candidate)
    requires Related(world, t, db) && Presented(t, c)
    ensures Related(world, Remember(t, c.request), WithRequest(db, c.request))
    ensures Related(world, Remember(t, c.request), db)
  {
    var t1 := Remember(t, c.request);
    SamePoolsSameRemaining(world, t, t1);
    forall i | 0 <= i < |t.grants|
      ensures SameGrant(t1.grants[i], db.grants[i], WithRequest(db, c.request).requests)
              && PoolsExist(t1.grants[i], WithRequest(db, c.request))
    {
      assert SameGrant(t.grants[i], db.grants[i], db.requests) && PoolsExist(t.grants[i], db);
    }
  }

  lemma TouchKeepsRelated(world: World, t: Tables, db: Db, customer: CustomerId, w: Window)
    requires Related(world, t, db)
    ensures Related(world, Touch(world, t, customer, w), db)
  {
    TouchKeepsPools(world, t, customer, w);
  }

  lemma AdmitKeepsRelated(world: World, t: Tables, db: Db, scope: Scope, c: Candidate, ceiling: nat, at: Instant)
    requires Related(world, t, db) && BudgetReady(world, db, c.windowId) && SameBudget(world, db, scope, c.customerId)
    requires Presented(t, c) && c.request.requestId in db.requests && db.requests[c.request.requestId] == c.request
    ensures Related(world, Admit(world, t, c, ceiling, at), SqlAdmit(db, scope, c, ceiling, at))
  {
    RowsAgree(world, t, db, scope, c);
    var t', db' := Admit(world, t, c, ceiling, at), SqlAdmit(db, scope, c, ceiling, at);
    forall i | 0 <= i < |t'.grants|
      ensures SameGrant(t'.grants[i], db'.grants[i], db'.requests) && PoolsExist(t'.grants[i], db')
    {
      assert i < |t.grants| ==> SameGrant(t.grants[i], db.grants[i], db.requests) && PoolsExist(t.grants[i], db);
    }
    forall w
      ensures MerchantPool(world, t', w) == if w in db'.budgetWindows then db'.budgetWindows[w]
              else FreshMerchantPool(world)
    {
      assert MerchantPool(world, t, w) == if w in db.budgetWindows then db.budgetWindows[w]
             else FreshMerchantPool(world);
    }
    forall o, w ensures CustomerPool(world, t', o, w)
                        == if (o, w) in db'.customerMargins then db'.customerMargins[(o, w)]
                           else FreshCustomerPool(world, o)
    {
      assert CustomerPool(world, t, o, w) == if (o, w) in db.customerMargins then db.customerMargins[(o, w)]
             else FreshCustomerPool(world, o);
    }
  }

  /**
   * Both issuers give the same grant, or the same denial with the same next instant, and leave
   * related stores, although one keeps the request and the pools of a denial and the other keeps nothing.
   */
  lemma IssuersAgree(world: World, t: Tables, db: Db, scope: Scope, c: Candidate, bps: int, at: Instant)
    requires Related(world, t, db) && Coherent(t) && Presented(t, c)
    requires BudgetReady(world, db, c.windowId) && SameBudget(world, db, scope, c.customerId)
    ensures var (r, t') := IssueGrant(world, t, c, bps, at);
            var (q, db') := SqlIssue(db, scope, c, bps, at);
            r == q && Related(world, t', db')
  {
    FoundAlike(world, t, db, c.request.requestId);
    var found := FindRequest(t.grants, c.request.requestId);
    if found.Some? {
      assert SameGrant(t.grants[found.value], db.grants[found.value], db.requests);
    } else {
      var t0, db1 := Remember(t, c.request), WithRequest(db, c.request);
      var t1 := Touch(world, t0, c.customerId, c.windowId);
      RequestKeepsRelated(world, t, db, c);
      TouchKeepsRelated(world, t0, db1, c.customerId, c.windowId);
      TouchKeepsRelated(world, t0, db, c.customerId, c.windowId);
      RefusalsAgree(world, t1, db1, scope, c, at);
      if Refusal(world, t1, c.customerId, c.windowId, at).None? {
        AdmitKeepsRelated(world, t1, db1, scope, c, CeilingFor(world, t1, c, bps), at);
      }
    }
  }

  // ---- The preview ----

  /** Either row is found as it is, or is read at a budget that is the one issuance will give it. */
  ghost predicate PreviewHolds(db: Db, own: Scope, issuing: Scope, merchantBudget: int, customer: CustomerId, w: Window)
  {
    && (w in db.budgetWindows || merchantBudget == MERCHANT_MARGIN_BUDGET_PAISE_PER_WINDOW)
    && ((customer, w) in db.customerMargins
        || CustomerMarginBudgetPaise(SumAmounts(db.riskItems, customer, own))
        == CustomerMarginBudgetPaise(SumAmounts(db.riskItems, customer, issuing)))
  }

  /**
   * What the preview promises is what issuance will then find exactly when the rows exist, or the
   * merchant's budget is configured as the constant issuance uses and the customer's items in the
   * ledger's own scope come to the same budget as those in the scope issuance is called with.
   */
  lemma PreviewMatchesCreation(db: Db, own: Scope, issuing: Scope, merchantBudget: int, customer: CustomerId, w: Window)
    ensures SqlPreview(db, own, merchantBudget, customer, w)
            == (Remaining(MerchantRow(db, w)), Remaining(CustomerRow(db, issuing, customer, w)))
            <==> PreviewHolds(db, own, issuing, merchantBudget, customer, w)
  {
  }

  /** Issuing without a scope keeps the preview's promise if the customer owns nothing outside the ledger's. */
  lemma UnscopedIssuanceKeepsThePromise(db: Db, own: set<RiskId>, customer: CustomerId, w: Window)
    requires forall i :: 0 <= i < |db.riskItems| && db.riskItems[i].customerId == customer ==>
               db.riskItems[i].item.riskId in own
    ensures PreviewHolds(db, Some(own), None, MERCHANT_MARGIN_BUDGET_PAISE_PER_WINDOW, customer, w)
  {
    UnscopedSumIff(db.riskItems, customer, own);
  }

  /** Another run's item of 100 rupees is in the issued pool and not in the preview. */
  lemma UnscopedIssuanceBreaksThePromise()
    ensures var item := RiskItem(2, "overdue_invoice", 10_000, "unknown", 0);
            var db := Db([RiskRow(item, 7)], map[], [], [],
                         map[0 := Pool(MERCHANT_MARGIN_BUDGET_PAISE_PER_WINDOW, 0, 0)], map[]);
            && SqlPreview(db, Some({1}), MERCHANT_MARGIN_BUDGET_PAISE_PER_WINDOW, 7, 0).1 == 0
            && Remaining(CustomerRow(db, None, 7, 0)) == 500
            && !PreviewHolds(db, Some({1}), None, MERCHANT_MARGIN_BUDGET_PAISE_PER_WINDOW, 7, 0)
  {
    var rows := [RiskRow(RiskItem(2, "overdue_invoice", 10_000, "unknown", 0), 7)];
    assert rows[1..] == [];
    assert SumAmounts(rows, 7, Some({1})) == 0 && SumAmounts(rows, 7, None) == 10_000;
  }

  /** With a configured budget of 30000 paise, the preview of a window nobody has touched misses the constant's. */
  lemma ConfiguredBudgetBreaksThePromise()
    ensures var db := Db([], map[], [], [], map[], map[]);
            && SqlPreview(db, Some({1}), 30_000, 7, 0).0 == 30_000
            && Remaining(MerchantRow(db, 0)) == 3_679_105
            && !PreviewHolds(db, Some({1}), Some({1}), 30_000, 7, 0)
  {
  }

  /** The unscoped query agrees with the scoped one exactly when the customer owns nothing outside the scope. */
  lemma {:induction false} UnscopedSumIff(rows: seq<RiskRow>, customer: CustomerId, own: set<RiskId>)
    ensures SumAmounts(rows, customer, Some(own)) <= SumAmounts(rows, customer, None)
    ensures SumAmounts(rows, customer, None) == SumAmounts(rows, customer, Some(own))
            <==> forall i :: 0 <= i < |rows| && rows[i].customerId == customer ==> rows[i].item.riskId in own
  {
    if rows != [] {
      UnscopedSumIff(rows[1..], customer, own);
      assert rows == [rows[0]] + rows[1..];
      assert (forall i :: 0 <= i < |rows| && rows[i].customerId == customer ==> rows[i].item.riskId in own)
             <==> (rows[0].customerId == customer ==> rows[0].item.riskId in own)
                  && forall i :: 0 <= i < |rows[1..]| && rows[1..][i].customerId == customer ==>
                       rows[1..][i].item.riskId in own;
    }
  }

  // ---- Lifecycle ----

  lemma MoveKeepsRelated(world: World, t: Tables, db: Db, i: nat, to: GrantState, at: Instant)
    requires Related(world, t, db) && i < |t.grants|
    ensures Related(world, UpdateGrantState(t, i, to, at), SetState(db, i, to, at))
  {
    var t', db' := UpdateGrantState(t, i, to, at), SetState(db, i, to, at);
    assert SameGrant(t.grants[i], db.grants[i], db.requests);
    SamePoolsSameRemaining(world, t, t');
    forall j | 0 <= j < |t'.grants|
      ensures SameGrant(t'.grants[j], db'.grants[j], db'.requests) && PoolsExist(t'.grants[j], db')
    {
      assert SameGrant(t.grants[j], db.grants[j], db.requests) && PoolsExist(t.grants[j], db);
    }
  }

  /** Both pools of a grant after a booking, as the in-memory ledger keeps them. */
  ghost predicate BookingFits(world: World, t: Tables, r: GrantRecord, reserve: int, spend: int) {
    var t' := Book(world, t, r.customerId, r.windowId, reserve, spend);
    WithinBudget(MerchantPool(world, t', r.windowId)) && WithinBudget(CustomerPool(world, t', r.customerId, r.windowId))
  }

  lemma BookingsAgree(world: World, t: Tables, db: Db, i: nat, reserve: int, spend: int)
    requires Related(world, t, db) && i < |t.grants|
    ensures var r := t.grants[i];
            var (db', e) := SqlBook(db, db.grants[i], r.customerId, reserve, spend);
            if BookingFits(world, t, r, reserve, spend)
            then e.None? && Related(world, Book(world, t, r.customerId, r.windowId, reserve, spend), db')
            else e == Some(CheckViolation)
  {
    var r := t.grants[i];
    assert SameGrant(r, db.grants[i], db.requests) && PoolsExist(r, db);
    assert MerchantPool(world, t, r.windowId) == db.budgetWindows[r.windowId];
    assert CustomerPool(world, t, r.customerId, r.windowId) == db.customerMargins[(r.customerId, r.windowId)];
    if BookingFits(world, t, r, reserve, spend) {
      BookKeepsRelated(world, t, db, i, reserve, spend);
    }
  }

  lemma BookKeepsRelated(world: World, t: Tables, db: Db, i: nat, reserve: int, spend: int)
    requires Related(world, t, db) && i < |t.grants| && BookingFits(world, t, t.grants[i], reserve, spend)
    ensures Related(world, Book(world, t, t.grants[i].customerId, t.grants[i].windowId, reserve, spend),
                    SqlBook(db, db.grants[i], t.grants[i].customerId, reserve, spend).0)
  {
    var r := t.grants[i];
    var t', db' := Book(world, t, r.customerId, r.windowId, reserve, spend),
        SqlBook(db, db.grants[i], r.customerId, reserve, spend).0;
    assert SameGrant(r, db.grants[i], db.requests) && PoolsExist(r, db);
    forall j | 0 <= j < |t'.grants|
      ensures SameGrant(t'.grants[j], db'.grants[j], db'.requests) && PoolsExist(t'.grants[j], db')
    {
      assert SameGrant(t.grants[j], db.grants[j], db.requests) && PoolsExist(t.grants[j], db);
    }
    forall w
      ensures MerchantPool(world, t', w) == if w in db'.budgetWindows then db'.budgetWindows[w]
              else FreshMerchantPool(world)
    {
      assert MerchantPool(world, t, w) == if w in db.budgetWindows then db.budgetWindows[w]
             else FreshMerchantPool(world);
    }
    forall o, w ensures CustomerPool(world, t', o, w)
                        == if (o, w) in db'.customerMargins then db'.customerMargins[(o, w)]
                           else FreshCustomerPool(world, o)
    {
      assert CustomerPool(world, t, o, w) == if (o, w) in db.customerMargins then db.customerMargins[(o, w)]
             else FreshCustomerPool(world, o);
    }
  }

  /** The booking a lifecycle step makes. */
  ghost function Booking(r: GrantRecord, step: Step): (int, int) {
    (0 - r.grant.ceilingPaise, if step.Confirm? then step.spendPaise else 0)
  }

  ghost function Settlement(db: Db, row: GrantRow, r: GrantRecord, step: Step): (Db, Option<SqlError>) {
    SqlBook(db, row, r.customerId, Booking(r, step).0, Booking(r, step).1)
  }

  ghost predicate SettlementFits(world: World, t: Tables, r: GrantRecord, step: Step) {
    BookingFits(world, t, r, Booking(r, step).0, Booking(r, step).1)
  }

  /** What becomes of a legal move: the same on both sides, unless the tables' constraints object. */
  lemma LegalMoveAgrees(world: World, t: Tables, db: Db, i: nat, step: Step, at: Instant)
    requires Related(world, t, db) && i < |t.grants| && LegalTransition(t.grants[i].grant.state, step.Target())
    ensures var t1, db1 := UpdateGrantState(t, i, step.Target(), at), SetState(db, i, step.Target(), at);
            && Related(world, t1, db1)
            && (!step.Execute? ==>
                  var (db', e) := Settlement(db1, db.grants[i], t.grants[i], step);
                  if SettlementFits(world, t, t.grants[i], step)
                  then e.None? && Related(world, BookStep(world, t1, t.grants[i], step), db')
                  else e == Some(CheckViolation))
  {
    var g, t1, db1 := t.grants[i], UpdateGrantState(t, i, step.Target(), at), SetState(db, i, step.Target(), at);
    MoveKeepsRelated(world, t, db, i, step.Target(), at);
    if !step.Execute? {
      var (reserve, spend) := Booking(g, step);
      assert SettlementFits(world, t, g, step) <==> BookingFits(world, t1, t1.grants[i], reserve, spend) by {
        SameBooking(world, t, t1, g, reserve, spend);
      }
      assert Settlement(db1, db.grants[i], g, step) == SqlBook(db1, db1.grants[i], g.customerId, reserve, spend);
      assert BookStep(world, t1, g, step) == Book(world, t1, g.customerId, g.windowId, reserve, spend);
      BookingsAgree(world, t1, db1, i, reserve, spend);
    }
  }

  /** How both sides carry out a legal move of the grant they find. */
  lemma LegalMoveUnfolds(world: World, t: Tables, db: Db, i: nat, step: Step, at: Instant)
    requires i < |t.grants| == |db.grants| && LegalTransition(t.grants[i].grant.state, step.Target())
    requires t.grants[i].grant == db.grants[i].grant
    requires FindGrant(t.grants, t.grants[i].grant.grantId) == Some(i)
             == FindGrantRowById(db.grants, t.grants[i].grant.grantId)
    requires CustomerOf(db, db.grants[i]) == Some(t.grants[i].customerId)
    ensures Transition(world, t, t.grants[i].grant.grantId, step, at)
            == Ok(BookStep(world, UpdateGrantState(t, i, step.Target(), at), t.grants[i], step))
    ensures SqlTransition(db, t.grants[i].grant.grantId, step, at)
            == if step.Execute? then (SetState(db, i, step.Target(), at), None)
               else Settlement(SetState(db, i, step.Target(), at), db.grants[i], t.grants[i], step)
  {
  }

  /** The tables refuse this step's settlement. */
  ghost predicate Overdraws(world: World, t: Tables, id: GrantId, step: Step) {
    var found := FindGrant(t.grants, id);
    && found.Some? && t.grants[found.value].grant.state != step.Target()
    && LegalTransition(t.grants[found.value].grant.state, step.Target()) && !step.Execute?
    && !SettlementFits(world, t, t.grants[found.value], step)
  }

  ghost predicate CallsAgree(world: World, t: Tables, db: Db, id: GrantId, step: Step, at: Instant) {
    var r := Transition(world, t, id, step, at);
    var (db', e) := SqlTransition(db, id, step, at);
    && (r == Err(UnknownGrant) <==> e == Some(UnknownGrantId))
    && (r == Err(IllegalTransition) <==> e == Some(IllegalMove))
    && (r.Err? ==> db' == db)
    && (e == Some(CheckViolation) <==> Overdraws(world, t, id, step))
    && (e.None? ==> r.Ok? && Related(world, r.value, db'))
  }

  lemma LegalCallsAgree(world: World, t: Tables, db: Db, i: nat, step: Step, at: Instant)
    requires Related(world, t, db) && i < |t.grants| && LegalTransition(t.grants[i].grant.state, step.Target())
    requires FindGrant(t.grants, t.grants[i].grant.grantId) == Some(i)
             == FindGrantRowById(db.grants, t.grants[i].grant.grantId)
    ensures CallsAgree(world, t, db, t.grants[i].grant.grantId, step, at)
  {
    assert SameGrant(t.grants[i], db.grants[i], db.requests);
    assert t.grants[i].grant.state != step.Target();
    LegalMoveUnfolds(world, t, db, i, step, at);
    LegalMoveAgrees(world, t, db, i, step, at);
  }

  lemma OtherCallsAgree(world: World, t: Tables, db: Db, id: GrantId, step: Step, at: Instant)
    requires Related(world, t, db) && FindGrantRowById(db.grants, id) == FindGrant(t.grants, id)
    requires var found := FindGrant(t.grants, id);
             found.Some? ==> !LegalTransition(t.grants[found.value].grant.state, step.Target())
    ensures CallsAgree(world, t, db, id, step, at)
  {
    var found := FindGrant(t.grants, id);
    if found.Some? {
      assert SameGrant(t.grants[found.value], db.grants[found.value], db.requests);
    }
  }

  /**
   * Lifecycle calls fail alike and succeed alike, with one difference: the tables refuse a settlement
   * that would overdraw a pool, exactly when it would, and the in-memory ledger books it.
   */
  lemma LifecyclesAgree(world: World, t: Tables, db: Db, id: GrantId, step: Step, at: Instant)
    requires Related(world, t, db) && Coherent(t)
    ensures CallsAgree(world, t, db, id, step, at)
  {
    FoundByIdAlike(world, t, db, id);
    var found := FindGrant(t.grants, id);
    if found.Some? && LegalTransition(t.grants[found.value].grant.state, step.Target()) {
      LegalCallsAgree(world, t, db, found.value, step, at);
    } else {
      OtherCallsAgree(world, t, db, id, step, at);
    }
  }

  lemma SameBooking(world: World, t: Tables, t1: Tables, r: GrantRecord, reserve: int, spend: int)
    requires t1.merchantPools == t.merchantPools && t1.customerPools == t.customerPools
    ensures BookingFits(world, t1, r, reserve, spend) <==> BookingFits(world, t, r, reserve, spend)
  {
  }

  /** A conserved and solvent ledger always satisfies the tables' constraints. */
  lemma ConservedWithinBudget(world: World, t: Tables, settled: Settlements, customer: CustomerId, w: Window)
    requires Conserved(world, t, settled) && Solvent(world, t) && forall id :: id in settled ==> settled[id] >= 0
    ensures WithinBudget(MerchantPool(world, t, w)) && WithinBudget(CustomerPool(world, t, customer, w))
  {
    SumNonNegative(t.grants, Reserving(None, w));
    SumNonNegative(t.grants, Spending(settled, None, w));
    SumNonNegative(t.grants, Reserving(Some(customer), w));
    SumNonNegative(t.grants, Spending(settled, Some(customer), w));
    assert MerchantPool(world, t, w) == ExpectedPool(t, settled, FreshMerchantPool(world), None, w);
    assert CustomerPool(world, t, customer, w)
           == ExpectedPool(t, settled, FreshCustomerPool(world, customer), Some(customer), w);
    assert MerchantRemaining(world, t, w) >= 0 && CustomerRemaining(world, t, customer, w) >= 0;
  }

  // ---- The pool is found again by the sending date ----

  /**
   * The customer's pool that a release changes is the one reserved exactly if the grant is sent on its
   * window's date.
   */
  lemma SendingDateFindsThePool(db: Db, row: GrantRow, customer: CustomerId, paise: int)
    requires row.budgetWindow in db.budgetWindows && (customer, row.budgetWindow) in db.customerMargins
    requires paise != 0 && SqlBook(db, row, customer, paise, 0).1.None?
    ensures SqlBook(db, row, customer, paise, 0).0.customerMargins[(customer, row.budgetWindow)]
            != db.customerMargins[(customer, row.budgetWindow)]
            <==> WindowIdFor(row.grant.sendAfter) == row.budgetWindow
  {
  }

  /** Candidates keep that promise from construction through every deferral. */
  lemma CandidatesKeepTheirDate(c: Candidate, next: Instant)
    ensures var moved := Rescheduled(Aged(c), WindowIdFor(next), next);
            moved.windowId == WindowIdFor(moved.sendAfter) && moved.request == c.request && moved.item == c.item
    ensures var built := BuildCandidate(c.request, c.item, c.customerId, c.sendAfter);
            && (built.Ok? ==> built.value.windowId == WindowIdFor(built.value.sendAfter) && ValidCandidate(built.value))
            && (built.Err? <==> !ValidCandidate(c))
  {
  }

  // ---- From the start, over any sequence of calls ----

  /** A database without grants or claims, whose pools, if any are seeded, are the run's own. */
  ghost predicate FreshFor(world: World, db: Db) {
    && db.grants == [] && db.claims == [] && db.requests == map[]
    && (forall w :: w in db.budgetWindows ==> db.budgetWindows[w] == FreshMerchantPool(world))
    && (forall k :: k in db.customerMargins ==> db.customerMargins[k] == FreshCustomerPool(world, k.0))
  }

  lemma FreshIsRelated(world: World, db: Db)
    requires FreshFor(world, db)
    ensures Related(world, EMPTY, db)
  {
  }

  /** The same call to the relational side; a preview and a denial write no row there. */
  ghost function SqlApply(db: Db, scope: Scope, op: Op): Db {
    match op
    case Issue(c, bps, at) => SqlIssue(db, scope, c, bps, at).1
    case Move(id, step, at) => SqlTransition(db, id, step, at).0
    case Preview(_, _) => db
    case Deny(_) => db
  }

  ghost function SqlReached(start: Db, scope: Scope, ops: seq<Op>): Db {
    if ops == [] then start else SqlApply(SqlReached(start, scope, ops[..|ops| - 1]), scope, ops[|ops| - 1])
  }

  /** What the two sides have to be given in common for a call. */
  ghost predicate Comparable(world: World, t: Tables, db: Db, scope: Scope, op: Op) {
    match op
    case Issue(c, _, _) => Presented(t, c) && BudgetReady(world, db, c.windowId)
      && SameBudget(world, db, scope, c.customerId)
    case Move(id, step, _) => !Overdraws(world, t, id, step)
    case _ => true
  }

  /** A call gets the same answer on both sides. */
  ghost predicate SameAnswer(world: World, t: Tables, db: Db, scope: Scope, op: Op) {
    match op
    case Issue(c, bps, at) => IssueGrant(world, t, c, bps, at).0 == SqlIssue(db, scope, c, bps, at).0
    case Move(id, step, at) =>
      var r, e := Transition(world, t, id, step, at), SqlTransition(db, id, step, at).1;
      if r.Ok? then e.None? else e == Some(if r.error.UnknownGrant? then UnknownGrantId else IllegalMove)
    case _ => true
  }

  lemma DenialKeepsRelated(world: World, t: Tables, db: Db, risk: RiskId)
    requires Related(world, t, db)
    ensures Related(world, MarkDenied(t, risk), db)
  {
    SamePoolsSameRemaining(world, t, MarkDenied(t, risk));
  }

  lemma MoveAgrees(world: World, t: Tables, db: Db, scope: Scope, id: GrantId, step: Step, at: Instant)
    requires Related(world, t, db) && Coherent(t) && !Overdraws(world, t, id, step)
    ensures SameAnswer(world, t, db, scope, Op.Move(id, step, at))
    ensures Related(world, Apply(world, t, Op.Move(id, step, at)), SqlTransition(db, id, step, at).0)
  {
    LifecyclesAgree(world, t, db, id, step, at);
    hide Related, Overdraws;
    var r, e := Transition(world, t, id, step, at), SqlTransition(db, id, step, at).1;
    assert e == None || e == Some(UnknownGrantId) || e == Some(IllegalMove) || e == Some(CheckViolation);
  }

  lemma CallAgrees(world: World, t: Tables, db: Db, scope: Scope, op: Op)
    requires Related(world, t, db) && Coherent(t) && Comparable(world, t, db, scope, op)
    ensures SameAnswer(world, t, db, scope, op)
    ensures Related(world, Apply(world, t, op), SqlApply(db, scope, op))
  {
    match op
    case Issue(c, bps, at) => IssuersAgree(world, t, db, scope, c, bps, at);
    case Move(id, step, at) => MoveAgrees(world, t, db, scope, id, step, at);
    case Preview(c, w) => TouchKeepsRelated(world, t, db, c, w);
    case Deny(risk) => DenialKeepsRelated(world, t, db, risk);
  }

  /** The n-th call of a sequence, with both ledgers as the calls before leave them. */
  ghost predicate ComparableAt(world: World, start: Db, scope: Scope, ops: seq<Op>, n: nat)
    requires n < |ops|
  {
    Comparable(world, Reached(world, ops[..n]), SqlReached(start, scope, ops[..n]), scope, ops[n])
  }

  ghost predicate AnsweredAlikeAt(world: World, start: Db, scope: Scope, ops: seq<Op>, n: nat)
    requires n < |ops|
  {
    SameAnswer(world, Reached(world, ops[..n]), SqlReached(start, scope, ops[..n]), scope, ops[n])
  }

  lemma NoCallsYet(world: World, start: Db, scope: Scope, ops: seq<Op>)
    requires FreshFor(world, start) && ops == []
    ensures Related(world, Reached(world, ops), SqlReached(start, scope, ops))
  {
    FreshIsRelated(world, start);
    hide Related;
  }

  lemma EarlierCallsAlike(world: World, start: Db, scope: Scope, ops: seq<Op>, before: seq<Op>, n: nat)
    requires before <= ops && n < |before|
    ensures ComparableAt(world, start, scope, before, n) <==> ComparableAt(world, start, scope, ops, n)
    ensures AnsweredAlikeAt(world, start, scope, before, n) <==> AnsweredAlikeAt(world, start, scope, ops, n)
  {
    assert before[..n] == ops[..n] && before[n] == ops[n];
  }

  lemma LastCallAgrees(world: World, start: Db, scope: Scope, ops: seq<Op>)
    requires ops != [] && ComparableAt(world, start, scope, ops, |ops| - 1)
    requires Related(world, Reached(world, ops[..|ops| - 1]), SqlReached(start, scope, ops[..|ops| - 1]))
    ensures Related(world, Reached(world, ops), SqlReached(start, scope, ops))
    ensures AnsweredAlikeAt(world, start, scope, ops, |ops| - 1)
  {
    var before := ops[..|ops| - 1];
    EveryReachableLedgerIsConserved(world, before);
    hide Related, Comparable, SameAnswer, Apply, SqlApply, Coherent, Conserved;
    CallAgrees(world, Reached(world, before), SqlReached(start, scope, before), scope, ops[|ops| - 1]);
  }

  /**
   * Starting empty, and for any sequence of calls that is comparable call by call, both ledgers give
   * the same answer to every call and end related.
   */
  lemma {:induction false} LedgersAgree(world: World, start: Db, scope: Scope, ops: seq<Op>)
    requires FreshFor(world, start)
    requires forall n :: 0 <= n < |ops| ==> ComparableAt(world, start, scope, ops, n)
    ensures Related(world, Reached(world, ops), SqlReached(start, scope, ops))
    ensures forall n :: 0 <= n < |ops| ==> AnsweredAlikeAt(world, start, scope, ops, n)
  {
    hide Related, ComparableAt, AnsweredAlikeAt, FreshFor, Reached, SqlReached;
    if ops == [] {
      NoCallsYet(world, start, scope, ops);
    } else {
      var before := ops[..|ops| - 1];
      forall n | 0 <= n < |before| ensures ComparableAt(world, start, scope, before, n) {
        EarlierCallsAlike(world, start, scope, ops, before, n);
      }
      LedgersAgree(world, start, scope, before);
      forall n | 0 <= n < |before| ensures AnsweredAlikeAt(world, start, scope, ops, n) {
        EarlierCallsAlike(world, start, scope, ops, before, n);
      }
      LastCallAgrees(world, start, scope, ops);
    }
  }
}
