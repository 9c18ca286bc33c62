/**
 * What the ledger counts, allows and changes (sampark/budget/store.py, sampark/mediation/lifecycle.py),
 * said of the grants, claims and pools themselves.
 */
module LedgerMeaning {
  import opened Clock
  import opened Contracts
  import opened Counting
  import opened Ledger
  import opened Wrappers

  // ---- A grant's life ----

  /** Every move a grant can make. */
  const MOVES: set<(GrantState, GrantState)> := {
    (Reserved, Executing), (Reserved, RolledBack), (Reserved, Expired), (Executing, Confirmed), (Executing, RolledBack)}

  ghost predicate CanStillMove(from: GrantState) {
    exists to :: (from, to) in MOVES
  }

  /**
   * A grant holds its reservation as long as it can still move, and its contact counts until it is
   * rolled back or expires; so what ends confirmed counts without holding anything.
   */
  lemma LivesMean(from: GrantState, to: GrantState)
    ensures LegalTransition(from, to) <==> (from, to) in MOVES
    ensures HoldsReservation(from) <==> CanStillMove(from)
    ensures CapacityConsuming(from) <==> CanStillMove(from) || from == Confirmed
    ensures Releasing(from) <==> !CanStillMove(from) && from != Confirmed
  {
    assert (Reserved, Executing) in MOVES && (Executing, Confirmed) in MOVES;
  }

  /** The pool of a window, complete until something is taken from it. */
  ghost predicate IsMerchantPool(world: World, t: Tables, w: Window, p: Pool) {
    if w in t.merchantPools then p == t.merchantPools[w] else p == Pool(world.merchantBudgetPaise, 0, 0)
  }

  /** A customer's pool: a twentieth of all that is at risk with them, rounded down. */
  ghost predicate IsCustomerPool(world: World, t: Tables, customer: CustomerId, w: Window, p: Pool) {
    if (customer, w) in t.customerPools then p == t.customerPools[(customer, w)]
    else
      var items := if customer in world.riskItems then world.riskItems[customer] else [];
      var atRisk := Total(items, (item: RiskItem) => item.amountPaise as nat);
      p.reservedPaise == 0 && p.spentPaise == 0 && 20 * p.budgetPaise <= atRisk < 20 * p.budgetPaise + 20
  }

  lemma {:induction false} TotalAmountSplits(a: seq<RiskItem>, b: seq<RiskItem>)
    ensures TotalAmount(a + b) == TotalAmount(a) + TotalAmount(b)
  {
    if a == [] {
      assert a + b == b;
    } else {
      assert (a + b)[1..] == a[1..] + b;
      TotalAmountSplits(a[1..], b);
    }
  }

  lemma {:induction false} TotalAmountIs(items: seq<RiskItem>)
    ensures TotalAmount(items) == Total(items, (item: RiskItem) => item.amountPaise as nat)
  {
    if items != [] {
      var n := |items| - 1;
      TotalAmountIs(items[..n]);
      assert items == items[..n] + [items[n]];
      TotalAmountSplits(items[..n], [items[n]]);
      assert [items[n]][1..] == [];
      assert TotalAmount([items[n]]) == items[n].amountPaise;
    }
  }

  lemma PoolsAre(world: World, t: Tables, customer: CustomerId, w: Window)
    ensures IsMerchantPool(world, t, w, MerchantPool(world, t, w))
    ensures IsCustomerPool(world, t, customer, w, CustomerPool(world, t, customer, w))
  {
    var items := RiskItemsFor(world, customer);
    TotalAmountIs(items);
    hide TotalAmount, Total;
  }

  /** What is left of a pool. */
  ghost function Left(p: Pool): int {
    p.budgetPaise - p.reservedPaise - p.spentPaise
  }

  /** A pool after a change to what it has reserved and spent. */
  ghost function Changed(p: Pool, reserved: int, spent: int): Pool {
    Pool(p.budgetPaise, p.reservedPaise + reserved, p.spentPaise + spent)
  }

  /** Both pools of a window change alike, and no other. */
  ghost predicate BothChange(world: World, t: Tables, t': Tables, customer: CustomerId, w: Window, reserved: int,
                             spent: int)
  {
    && (exists p :: IsMerchantPool(world, t, w, p)
          && t'.merchantPools == t.merchantPools[w := Changed(p, reserved, spent)])
    && (exists p :: IsCustomerPool(world, t, customer, w, p)
                    && t'.customerPools == t.customerPools[(customer, w) := Changed(p, reserved, spent)])
  }

  /** A claim that follows its grant to a new state; the end of a grant that came to nothing is stamped. */
  ghost function Following(k: Claim, to: GrantState, at: Instant): Claim {
    Claim(k.grantId, k.customerId, k.windowId, to, k.claimedAt,
          if to in {RolledBack, Expired} then Some(at) else k.releasedAt)
  }

  /** The claim of this grant follows, if it has one. */
  ghost predicate ClaimFollows(claims: seq<Claim>, claims': seq<Claim>, id: GrantId, to: GrantState, at: Instant) {
    || (claims' == claims && forall k :: 0 <= k < |claims| ==> claims[k].grantId != id)
    || (exists k :: 0 <= k < |claims| && claims[k].grantId == id
          && claims' == claims[k := Following(claims[k], to, at)])
  }

  /** The i-th grant has moved, its claim with it, and nothing else about grants, claims, requests and denials. */
  ghost predicate HasMoved(t: Tables, t': Tables, i: nat, to: GrantState, at: Instant) {
    && i < |t.grants| && t'.requests == t.requests && t'.deniedRiskIds == t.deniedRiskIds
    && t'.grants == t.grants[i := t.grants[i].(grant := t.grants[i].grant.(state := to))]
    && ClaimFollows(t.claims, t'.claims, t.grants[i].grant.grantId, to, at)
  }

  lemma BothChangeAre(world: World, t: Tables, t': Tables, customer: CustomerId, w: Window, reserved: int, spent: int)
    requires t'.merchantPools == t.merchantPools[w := Changed(MerchantPool(world, t, w), reserved, spent)]
    requires t'.customerPools
             == t.customerPools[(customer, w) := Changed(CustomerPool(world, t, customer, w), reserved, spent)]
    ensures BothChange(world, t, t', customer, w, reserved, spent)
  {
    PoolsAre(world, t, customer, w);
    hide IsMerchantPool, IsCustomerPool, MerchantPool, CustomerPool, Changed;
  }

  /** Booking on a ledger with the same pools. */
  lemma BookMeans(world: World, t: Tables, moved: Tables, customer: CustomerId, w: Window, reserved: int, spent: int)
    requires moved.merchantPools == t.merchantPools && moved.customerPools == t.customerPools
    ensures var t' := Book(world, moved, customer, w, reserved, spent);
            && BothChange(world, t, t', customer, w, reserved, spent)
            && t'.grants == moved.grants && t'.claims == moved.claims && t'.requests == moved.requests
            && t'.deniedRiskIds == moved.deniedRiskIds
  {
    BothChangeAre(world, t, Book(world, moved, customer, w, reserved, spent), customer, w, reserved, spent);
  }

  /**
   * A lifecycle call in full.  Repeating a step changes nothing, a move that is not among the five is
   * an error, and the rest move grant and claim: executing touches no pool, confirming turns the
   * reservation into what was spent, and everything else returns it.
   */
  lemma TransitionMeans(world: World, t: Tables, id: GrantId, step: Step, at: Instant) returns (i: nat)
    requires exists k :: 0 <= k < |t.grants| && t.grants[k].grant.grantId == id
    ensures i < |t.grants| && t.grants[i].grant.grantId == id
    ensures var r, result := t.grants[i], Transition(world, t, id, step, at);
            var from, to := r.grant.state, step.Target();
            && (from == to ==> result == Ok(t))
            && (from != to && (from, to) !in MOVES ==> result == Err(IllegalTransition))
            && ((from, to) in MOVES ==>
                  && result.Ok? && HasMoved(t, result.value, i, to, at)
                  && (match step
                      case Execute => result.value.merchantPools == t.merchantPools
                                      && result.value.customerPools == t.customerPools
                      case Confirm(spend) => BothChange(world, t, result.value, r.customerId, r.windowId,
                                                        0 - r.grant.ceilingPaise, spend)
                      case _ => BothChange(world, t, result.value, r.customerId, r.windowId,
                                           0 - r.grant.ceilingPaise, 0)))
  {
    i := FindGrant(t.grants, id).value;
    var r, to := t.grants[i], step.Target();
    LivesMean(r.grant.state, to);
    ClaimMoves(t, i, to, at);
    var moved := UpdateGrantState(t, i, to, at);
    BookMeans(world, t, moved, r.customerId, r.windowId, 0 - r.grant.ceilingPaise,
              if step.Confirm? then step.spendPaise else 0);
    hide MOVES, LegalTransition, BothChange, Book, UpdateGrantState, ClaimFollows;
  }

  lemma ClaimMoves(t: Tables, i: nat, to: GrantState, at: Instant)
    requires i < |t.grants|
    ensures HasMoved(t, UpdateGrantState(t, i, to, at), i, to, at)
  {
    var id := t.grants[i].grant.grantId;
    var k := FindClaimFrom(t.claims, id, 0);
    if k.Some? {
      assert t.claims[k.value].grantId == id;
    }
  }

  lemma UnknownGrantIsAnError(world: World, t: Tables, id: GrantId, step: Step, at: Instant)
    ensures Transition(world, t, id, step, at) == Err(UnknownGrant)
            <==> forall k :: 0 <= k < |t.grants| ==> t.grants[k].grant.grantId != id
  {
    hide LegalTransition, BookStep, UpdateGrantState;
  }

  // ---- What is counted ----

  /** A contact of the customer later than this: planned, being made or made. */
  ghost predicate PlannedOrMade(r: GrantRecord, customer: CustomerId, after: Instant) {
    r.customerId == customer && r.grant.state in {Reserved, Executing, Confirmed} && after < r.grant.sendAfter
  }

  /** A contact that was made, or is being made, before this. */
  ghost predicate Made(r: GrantRecord, customer: CustomerId, before: Instant) {
    r.customerId == customer && r.grant.state in {Executing, Confirmed} && r.grant.sendAfter < before
  }

  /** How many contacts of the customer the ledger has from then on. */
  ghost function ContactsSince(t: Tables, customer: CustomerId, after: Instant): nat {
    |Where(t.grants, (r: GrantRecord) => PlannedOrMade(r, customer, after))|
  }

  lemma {:induction false} CountSinceIs(grants: seq<GrantRecord>, customer: CustomerId, after: Instant)
    ensures CountSince(grants, customer, after) == |Where(grants, (r: GrantRecord) =>
                                                          PlannedOrMade(r, customer, after))|
  {
    var p := (r: GrantRecord) => PlannedOrMade(r, customer, after);
    if grants == [] {
      assert Where(grants, p) == {};
    } else {
      CountSinceIs(grants[..|grants| - 1], customer, after);
      WhereLast(grants, p);
    }
  }

  /** The rolling counts are numbers of contacts in the last twenty-four hours and in the last seven days. */
  lemma RollingCountsAre(t: Tables, customer: CustomerId, at: Instant)
    ensures RollingContactCounts(t, customer, at)
            == (ContactsSince(t, customer, at - 24 * HOUR), ContactsSince(t, customer, at - 7 * 24 * HOUR))
  {
    CountSinceIs(t.grants, customer, at - 24 * HOUR);
    CountSinceIs(t.grants, customer, at - 7 * 24 * HOUR);
    assert DAY == 24 * HOUR;
  }

  lemma {:induction false} CountContactedIs(grants: seq<GrantRecord>, customer: CustomerId, before: Instant)
    ensures CountContacted(grants, customer, before) == |Where(grants, (r: GrantRecord) => Made(r, customer, before))|
  {
    var p := (r: GrantRecord) => Made(r, customer, before);
    if grants == [] {
      assert Where(grants, p) == {};
    } else {
      CountContactedIs(grants[..|grants| - 1], customer, before);
      WhereLast(grants, p);
    }
  }

  /** The contact history a score sees. */
  lemma ContactsMadeAre(t: Tables, customer: CustomerId, before: Instant)
    ensures ContactsMade(t, customer, before) == |Where(t.grants, (r: GrantRecord) => Made(r, customer, before))|
  {
    CountContactedIs(t.grants, customer, before);
  }

  /** Somebody's claim on the customer's slot of the window stands. */
  ghost predicate SlotIsHeld(t: Tables, customer: CustomerId, w: Window) {
    exists k: Claim :: k in t.claims && k.customerId == customer && k.windowId == w
                       && k.state in {Reserved, Executing, Confirmed}
  }

  lemma ActiveClaimMeans(t: Tables, customer: CustomerId, w: Window)
    ensures HasActiveClaim(t, customer, w) <==> SlotIsHeld(t, customer, w)
  {
    if i :| 0 <= i < |t.claims| && IsActiveClaim(t.claims[i], customer, w) {
      assert t.claims[i] in t.claims;
    }
  }

  // ---- What is still open ----

  /** A confirmed grant of the customer was about this item. */
  ghost predicate WasRecovered(t: Tables, customer: CustomerId, risk: RiskId) {
    exists r: GrantRecord ::
      r in t.grants && r.customerId == customer && r.grant.state == Confirmed
      && r.requestId in t.requests && t.requests[r.requestId].riskId == risk
  }

  /** Another item of the customer that was there by now and is neither denied nor dealt with. */
  ghost predicate StillOpen(t: Tables, customer: CustomerId, at: Instant, excluded: RiskId, item: RiskItem) {
    && item.riskId != excluded && item.detectedAt <= at
    && item.riskId !in t.deniedRiskIds && !WasRecovered(t, customer, item.riskId)
  }

  lemma OpenMeans(t: Tables, customer: CustomerId, at: Instant, excluded: RiskId, item: RiskItem)
    ensures IsOpen(t, customer, at, excluded, item) <==> StillOpen(t, customer, at, excluded, item)
  {
    if i :| 0 <= i < |t.grants| && t.grants[i].customerId == customer && t.grants[i].grant.state.Confirmed?
            && t.grants[i].requestId in t.requests && t.requests[t.grants[i].requestId].riskId == item.riskId
    {
      assert t.grants[i] in t.grants;
    }
    if WasRecovered(t, customer, item.riskId) {
      var r: GrantRecord :| r in t.grants && r.customerId == customer && r.grant.state == Confirmed
                            && r.requestId in t.requests && t.requests[r.requestId].riskId == item.riskId;
      var i :| 0 <= i < |t.grants| && t.grants[i] == r;
      assert ResolvedByGrant(t, customer, item.riskId);
    }
  }

  lemma {:induction false} OpenAmountsSplit(t: Tables, a: seq<RiskItem>, b: seq<RiskItem>, customer: CustomerId,
                                            at: Instant, excluded: RiskId)
    ensures OpenAmounts(t, a + b, customer, at, excluded)
            == OpenAmounts(t, a, customer, at, excluded) + OpenAmounts(t, b, customer, at, excluded)
  {
    hide IsOpen;
    if a == [] {
      assert a + b == b;
    } else {
      assert (a + b)[1..] == a[1..] + b;
      OpenAmountsSplit(t, a[1..], b, customer, at, excluded);
    }
  }

  /** These are the amounts of the items at these places. */
  ghost predicate AmountsAt(items: seq<RiskItem>, where: seq<nat>, amounts: seq<int>) {
    |amounts| == |where|
    && forall j :: 0 <= j < |where| ==> where[j] < |items| && amounts[j] == items[where[j]].amountPaise
  }

  /** The last item, if it is open, adds its amount. */
  lemma OpenAmountsLast(t: Tables, items: seq<RiskItem>, customer: CustomerId, at: Instant, excluded: RiskId)
    requires items != []
    ensures var n := |items| - 1;
            OpenAmounts(t, items, customer, at, excluded)
            == OpenAmounts(t, items[..n], customer, at, excluded)
               + (if StillOpen(t, customer, at, excluded, items[n]) then [items[n].amountPaise as int] else [])
  {
    var n := |items| - 1;
    OpenMeans(t, customer, at, excluded, items[n]);
    hide IsOpen, StillOpen;
    assert items == items[..n] + [items[n]];
    OpenAmountsSplit(t, items[..n], [items[n]], customer, at, excluded);
    assert [items[n]][1..] == [];
  }

  lemma AmountsOneMore(items: seq<RiskItem>, before: seq<nat>, where: seq<nat>, earlier: seq<int>, amounts: seq<int>)
    requires items != [] && AmountsAt(items[..|items| - 1], before, earlier)
    requires var n := |items| - 1;
             (where == before && amounts == earlier)
             || (where == before + [n] && amounts == earlier + [items[n].amountPaise as int])
    ensures AmountsAt(items, where, amounts)
  {
    var n := |items| - 1;
    assert forall j :: 0 <= j < |before| ==> items[..n][before[j]] == items[before[j]];
  }

  lemma {:induction false} OpenItemsAre(t: Tables, items: seq<RiskItem>, customer: CustomerId, at: Instant,
                                        excluded: RiskId)
    returns (where: seq<nat>)
    ensures Picks(items, (item: RiskItem) => StillOpen(t, customer, at, excluded, item), where)
    ensures AmountsAt(items, where, OpenAmounts(t, items, customer, at, excluded))
  {
    var open := (item: RiskItem) => StillOpen(t, customer, at, excluded, item);
    if items == [] {
      where := [];
    } else {
      var n := |items| - 1;
      var before := OpenItemsAre(t, items[..n], customer, at, excluded);
      where := if StillOpen(t, customer, at, excluded, items[n]) then before + [n] else before;
      hide Picks, StillOpen, OpenAmounts, AmountsAt;
      PicksLast(items, open, before, where);
      OpenAmountsLast(t, items, customer, at, excluded);
      AmountsOneMore(items, before, where, OpenAmounts(t, items[..n], customer, at, excluded),
                     OpenAmounts(t, items, customer, at, excluded));
    }
  }

  /** What a score sees of the customer's other items: the amounts of those still open, in order. */
  lemma OtherOpenAmountsAre(world: World, t: Tables, customer: CustomerId, at: Instant, excluded: RiskId)
    returns (items: seq<RiskItem>, where: seq<nat>)
    ensures items == if customer in world.riskItems then world.riskItems[customer] else []
    ensures Picks(items, (item: RiskItem) => StillOpen(t, customer, at, excluded, item), where)
    ensures AmountsAt(items, where, OtherOpenAmounts(world, t, customer, at, excluded))
  {
    items := RiskItemsFor(world, customer);
    where := OpenItemsAre(t, items, customer, at, excluded);
  }

  // ---- Issuance ----

  /** Why a candidate can be refused, in the order it is looked at. */
  const OBSTACLES: seq<ReasonCode> :=
    [MerchantMarginExhausted, CustomerMarginExhausted, ContactCap24h, ContactCap7d, ContactSlotTaken]

  ghost predicate Stands(world: World, t: Tables, customer: CustomerId, w: Window, at: Instant, obstacle: ReasonCode) {
    match obstacle
    case MerchantMarginExhausted => exists p :: IsMerchantPool(world, t, w, p) && Left(p) <= 0
    case CustomerMarginExhausted => exists p :: IsCustomerPool(world, t, customer, w, p) && Left(p) <= 0
    case ContactCap24h => ContactsSince(t, customer, at - 24 * HOUR) >= 1
    case ContactCap7d => ContactsSince(t, customer, at - 7 * 24 * HOUR) >= 2
    case ContactSlotTaken => SlotIsHeld(t, customer, w)
    case _ => false
  }

  lemma OnePool(world: World, t: Tables, customer: CustomerId, w: Window, p: Pool)
    ensures IsMerchantPool(world, t, w, p) ==> p == MerchantPool(world, t, w)
    ensures IsCustomerPool(world, t, customer, w, p) ==> p == CustomerPool(world, t, customer, w)
  {
    PoolsAre(world, t, customer, w);
    hide Total;
  }

  lemma ObstaclesMean(world: World, t: Tables, customer: CustomerId, w: Window, at: Instant)
    ensures Stands(world, t, customer, w, at, MerchantMarginExhausted) <==> MerchantRemaining(world, t, w) <= 0
    ensures Stands(world, t, customer, w, at, CustomerMarginExhausted)
            <==> CustomerRemaining(world, t, customer, w) <= 0
  {
    PoolsAre(world, t, customer, w);
    forall p ensures IsMerchantPool(world, t, w, p) ==> p == MerchantPool(world, t, w) {
      OnePool(world, t, customer, w, p);
    }
    forall p ensures IsCustomerPool(world, t, customer, w, p) ==> p == CustomerPool(world, t, customer, w) {
      OnePool(world, t, customer, w, p);
    }
    hide IsMerchantPool, IsCustomerPool, MerchantPool, CustomerPool;
  }

  /** Issuance refuses for the first obstacle that stands, and for nothing else. */
  lemma RefusalMeans(world: World, t: Tables, customer: CustomerId, w: Window, at: Instant)
    ensures FirstOf(OBSTACLES, (o: ReasonCode) => Stands(world, t, customer, w, at, o),
                    Refusal(world, t, customer, w, at))
  {
    ObstaclesMean(world, t, customer, w, at);
    RollingCountsAre(t, customer, at);
    ActiveClaimMeans(t, customer, w);
    hide MerchantRemaining, CustomerRemaining, RollingContactCounts, HasActiveClaim, SlotIsHeld, ContactsSince;
    var refusal := Refusal(world, t, customer, w, at);
    if refusal.Some? {
      var i := if refusal == Some(MerchantMarginExhausted) then 0 else if refusal == Some(CustomerMarginExhausted)
          then 1
               else if refusal == Some(ContactCap24h) then 2 else if refusal == Some(ContactCap7d) then 3 else 4;
      assert OBSTACLES[i] == refusal.value;
    }
  }

  /** The ceiling of a new grant: what the rate asks for, or what is left if that is less. */
  ghost predicate IsCeiling(amountPaise: int, bps: int, merchantLeft: int, ownLeft: int, ceiling: int) {
    var asked := amountPaise * bps / 10_000;
    && ceiling <= merchantLeft && ceiling <= ownLeft
    && (asked >= 0 ==> ceiling <= asked && (ceiling == asked || ceiling == merchantLeft || ceiling == ownLeft))
    && (asked < 0 ==> ceiling == 0)
  }

  /** A grant is recorded: reserved, for two hours from when it is sent, with a claim and both reservations. */
  ghost predicate NewlyGranted(world: World, t: Tables, t': Tables, c: Candidate, bps: int, at: Instant, grant: Grant) {
    var id, w := Uuid5Grant(c.request.requestId), c.windowId;
    && grant == Grant(id, c.request.channel, grant.ceilingPaise, c.sendAfter, c.sendAfter + 2 * HOUR, Reserved)
    && t'.grants == t.grants + [GrantRecord(grant, c.request.requestId, c.customerId, w)]
    && t'.claims == t.claims + [Claim(id, c.customerId, w, Reserved, at, None)]
    && BothChange(world, t, t', c.customerId, w, grant.ceilingPaise, 0)
    && exists m, own :: IsMerchantPool(world, t, w, m) && IsCustomerPool(world, t, c.customerId, w, own)
                        && IsCeiling(c.item.amountPaise, bps, Left(m), Left(own), grant.ceilingPaise)
  }

  /** The request is on record from now on, under the wording it first came in. */
  ghost predicate OnRecord(t: Tables, t': Tables, request: GrantRequest) {
    && request.requestId in t'.requests
    && (request.requestId !in t.requests ==> t'.requests[request.requestId] == request)
    && (forall id :: id in t.requests ==> id in t'.requests && t'.requests[id] == t.requests[id])
    && (forall id :: id in t'.requests ==> id in t.requests || id == request.requestId)
  }

  /**
   * Issuance in full.  A request that was granted before is answered with its grant and changes
   * nothing.  Otherwise the first obstacle refuses it until 09:00 of the next day and only the request
   * and two untouched pools are put on record; with no obstacle it is granted.
   */
  lemma IssueMeans(world: World, t: Tables, c: Candidate, bps: int, at: Instant)
    ensures var (result, t') := IssueGrant(world, t, c, bps, at);
            if exists r: GrantRecord :: r in t.grants && r.requestId == c.request.requestId
            then t' == t && result.GrantIssued?
                 && exists r: GrantRecord :: r in t.grants && r.requestId == c.request.requestId
                      && r.grant == result.grant
            else
              && OnRecord(t, t', c.request) && t'.deniedRiskIds == t.deniedRiskIds
              && FirstOf(OBSTACLES, (o: ReasonCode) => Stands(world, t, c.customerId, c.windowId, at, o),
                         if result.BudgetDenial? then Some(result.reason) else None)
              && (result.BudgetDenial? ==>
                    && result.nextEligibleAt == WindowStartFor(c.windowId + 1)
                    && t'.grants == t.grants && t'.claims == t.claims
                    && BothChange(world, t, t', c.customerId, c.windowId, 0, 0))
              && (result.GrantIssued? ==> NewlyGranted(world, t, t', c, bps, at, result.grant))
  {
    var existing := FindRequest(t.grants, c.request.requestId);
    if existing.Some? {
      assert t.grants[existing.value] in t.grants;
    } else {
      FirstIssueMeans(world, t, c, bps, at);
    }
  }

  /** Pools that exist are the pools there were. */
  lemma TouchedAsBefore(world: World, t: Tables, c: Candidate, at: Instant)
    ensures var t1 := Touch(world, Remember(t, c.request), c.customerId, c.windowId);
            && MerchantPool(world, t1, c.windowId) == MerchantPool(world, t, c.windowId)
            && CustomerPool(world, t1, c.customerId, c.windowId) == CustomerPool(world, t, c.customerId, c.windowId)
            && Refusal(world, t1, c.customerId, c.windowId, at) == Refusal(world, t, c.customerId, c.windowId, at)
            && OnRecord(t, t1, c.request) && BothChange(world, t, t1, c.customerId, c.windowId, 0, 0)
  {
    PoolsAre(world, t, c.customerId, c.windowId);
    hide IsMerchantPool, IsCustomerPool, FreshMerchantPool, FreshCustomerPool;
    var t1 := Touch(world, Remember(t, c.request), c.customerId, c.windowId);
    assert t1.merchantPools == t.merchantPools[c.windowId := Changed(MerchantPool(world, t, c.windowId), 0, 0)];
    assert t1.customerPools == t.customerPools[(c.customerId, c.windowId) :=
                                                 Changed(CustomerPool(world, t, c.customerId, c.windowId), 0, 0)];
  }

  lemma CeilingMeans(world: World, t: Tables, c: Candidate, bps: int)
    requires MerchantRemaining(world, t, c.windowId) > 0 && CustomerRemaining(world, t, c.customerId, c.windowId) > 0
    ensures IsCeiling(c.item.amountPaise, bps, Left(MerchantPool(world, t, c.windowId)),
                      Left(CustomerPool(world, t, c.customerId, c.windowId)), CeilingFor(world, t, c, bps))
  {
    hide MerchantPool, CustomerPool;
  }

  lemma FirstIssueMeans(world: World, t: Tables, c: Candidate, bps: int, at: Instant)
    requires FindRequest(t.grants, c.request.requestId).None?
    ensures var (result, t') := IssueGrant(world, t, c, bps, at);
            && OnRecord(t, t', c.request) && t'.deniedRiskIds == t.deniedRiskIds
            && FirstOf(OBSTACLES, (o: ReasonCode) => Stands(world, t, c.customerId, c.windowId, at, o),
                       if result.BudgetDenial? then Some(result.reason) else None)
            && (result.BudgetDenial? ==>
                  && result.nextEligibleAt == WindowStartFor(c.windowId + 1)
                  && t'.grants == t.grants && t'.claims == t.claims
                  && BothChange(world, t, t', c.customerId, c.windowId, 0, 0))
            && (result.GrantIssued? ==> NewlyGranted(world, t, t', c, bps, at, result.grant))
  {
    RefusalMeans(world, t, c.customerId, c.windowId, at);
    TouchedAsBefore(world, t, c, at);
    if Refusal(world, t, c.customerId, c.windowId, at).None? {
      AdmittedAsGranted(world, t, c, bps, at);
    }
    hide Refusal, FirstOf, Stands, OnRecord, BothChange, Touch, Remember, NewlyGranted, OBSTACLES;
  }

  /** Both pools once touched and then charged. */
  lemma TouchedThenCharged(world: World, t: Tables, t1: Tables, customer: CustomerId, w: Window, charge: int)
    requires t1.merchantPools == t.merchantPools[w := MerchantPool(world, t, w)]
    requires t1.customerPools == t.customerPools[(customer, w) := CustomerPool(world, t, customer, w)]
    ensures BothChange(world, t, Book(world, t1, customer, w, charge, 0), customer, w, charge, 0)
  {
    var m, own := MerchantPool(world, t, w), CustomerPool(world, t, customer, w);
    hide FreshMerchantPool, FreshCustomerPool, BothChange;
    var t' := Book(world, t1, customer, w, charge, 0);
    assert MerchantPool(world, t1, w) == m && CustomerPool(world, t1, customer, w) == own;
    assert t1.merchantPools[w := Changed(m, charge, 0)] == t.merchantPools[w := Changed(m, charge, 0)];
    assert t1.customerPools[(customer, w) := Changed(own, charge, 0)]
           == t.customerPools[(customer, w) := Changed(own, charge, 0)];
    hide MerchantPool, CustomerPool;
    BothChangeAre(world, t, t', customer, w, charge, 0);
  }

  lemma AdmitMeans(world: World, t: Tables, c: Candidate, ceiling: nat, at: Instant)
    ensures var t1 := Touch(world, Remember(t, c.request), c.customerId, c.windowId);
            var t', id := Admit(world, t1, c, ceiling, at), Uuid5Grant(c.request.requestId);
            && BothChange(world, t, t', c.customerId, c.windowId, ceiling, 0)
            && t'.grants
               == t.grants + [GrantRecord(NewGrant(c, ceiling), c.request.requestId, c.customerId, c.windowId)]
            && t'.claims == t.claims + [Claim(id, c.customerId, c.windowId, Reserved, at, None)]
            && t'.requests == t1.requests && t'.deniedRiskIds == t.deniedRiskIds
  {
    var t1 := Touch(world, Remember(t, c.request), c.customerId, c.windowId);
    var grant := NewGrant(c, ceiling);
    var with := t1.(
      grants := t1.grants + [GrantRecord(grant, c.request.requestId, c.customerId, c.windowId)],
      claims := t1.claims + [Claim(grant.grantId, c.customerId, c.windowId, Reserved, at, None)]);
    hide BothChange, FreshMerchantPool, FreshCustomerPool;
    assert with.merchantPools == t.merchantPools[c.windowId := MerchantPool(world, t, c.windowId)]
           && with.customerPools
              == t.customerPools[(c.customerId, c.windowId) := CustomerPool(world, t, c.customerId, c.windowId)];
    hide MerchantPool, CustomerPool;
    TouchedThenCharged(world, t, with, c.customerId, c.windowId, ceiling);
  }

  lemma AdmittedAsGranted(world: World, t: Tables, c: Candidate, bps: int, at: Instant)
    requires Refusal(world, t, c.customerId, c.windowId, at).None?
    ensures var t1 := Touch(world, Remember(t, c.request), c.customerId, c.windowId);
            var ceiling := CeilingFor(world, t1, c, bps);
            var t' := Admit(world, t1, c, ceiling, at);
            && NewlyGranted(world, t, t', c, bps, at, NewGrant(c, ceiling))
            && OnRecord(t, t', c.request) && t'.deniedRiskIds == t.deniedRiskIds
  {
    TouchedAsBefore(world, t, c, at);
    PoolsAre(world, t, c.customerId, c.windowId);
    var t1 := Touch(world, Remember(t, c.request), c.customerId, c.windowId);
    var ceiling := CeilingFor(world, t1, c, bps);
    NothingRefused(world, t1, c.customerId, c.windowId, at);
    CeilingMeans(world, t1, c, bps);
    AdmitMeans(world, t, c, ceiling, at);
    hide Refusal, CeilingFor, IsCeiling, IsMerchantPool, IsCustomerPool, OnRecord, BothChange, MerchantPool,
         CustomerPool, Admit, Touch, Remember;
    SameRequestsOnRecord(t, t1, Admit(world, t1, c, ceiling, at), c.request);
  }

  lemma NothingRefused(world: World, t: Tables, customer: CustomerId, w: Window, at: Instant)
    requires Refusal(world, t, customer, w, at).None?
    ensures MerchantRemaining(world, t, w) > 0 && CustomerRemaining(world, t, customer, w) > 0
  {
    hide MerchantPool, CustomerPool, RollingContactCounts, HasActiveClaim;
  }

  lemma SameRequestsOnRecord(t: Tables, t1: Tables, t': Tables, request: GrantRequest)
    requires OnRecord(t, t1, request) && t'.requests == t1.requests
    ensures OnRecord(t, t', request)
  {
  }
}
