/**
 * What holds of the ledger after any sequence of calls, in any order and with any arguments:
 * one grant per request, one active claim per slot, claims that follow their grants, and margin
 * pools whose two running totals are exactly the sums over the grants they stand for.
 */
module LedgerInvariants {
  import opened Clock
  import opened Contracts
  import opened Ledger
  import opened Margin
  import opened Wrappers

  // ---- Sums over grants ----

  ghost function Sum(grants: seq<GrantRecord>, f: GrantRecord -> int): int {
    if grants == [] then 0 else Sum(grants[..|grants| - 1], f) + f(grants[|grants| - 1])
  }

  lemma SumAppend(grants: seq<GrantRecord>, r: GrantRecord, f: GrantRecord -> int)
    ensures Sum(grants + [r], f) == Sum(grants, f) + f(r)
  {
    assert (grants + [r])[..|grants|] == grants;
  }

  lemma {:induction false} SumUpdate(grants: seq<GrantRecord>, i: nat, r: GrantRecord, f: GrantRecord -> int)
    requires i < |grants|
    ensures Sum(grants[i := r], f) == Sum(grants, f) - f(grants[i]) + f(r)
  {
    var n := |grants| - 1;
    if i == n {
      assert grants[i := r][..n] == grants[..n];
    } else {
      assert grants[i := r][..n] == grants[..n][i := r];
      SumUpdate(grants[..n], i, r, f);
    }
  }

  lemma {:induction false} SumCongruence(grants: seq<GrantRecord>, f: GrantRecord -> int, g: GrantRecord -> int)
    requires forall r :: r in grants ==> f(r) == g(r)
    ensures Sum(grants, f) == Sum(grants, g)
  {
    if grants != [] {
      SumCongruence(grants[..|grants| - 1], f, g);
    }
  }

  lemma {:induction false} SumNonNegative(grants: seq<GrantRecord>, f: GrantRecord -> int)
    requires forall r :: r in grants ==> f(r) >= 0
    ensures Sum(grants, f) >= 0
  {
    if grants != [] {
      SumNonNegative(grants[..|grants| - 1], f);
    }
  }

  /** The merchant's pool covers every grant of the window; a customer's pool only their own. */
  predicate InScope(r: GrantRecord, owner: Option<CustomerId>, w: Window) {
    r.windowId == w && (owner.Some? ==> r.customerId == owner.value)
  }

  ghost function Reserving(owner: Option<CustomerId>, w: Window): GrantRecord -> int {
    (r: GrantRecord) => if InScope(r, owner, w) && HoldsReservation(r.grant.state) then r.grant.ceilingPaise else 0
  }

  /** The spends booked so far, by request. */
  type Settlements = map<RequestId, int>

  ghost function Spending(settled: Settlements, owner: Option<CustomerId>, w: Window): GrantRecord -> int {
    (r: GrantRecord) =>
      if InScope(r, owner, w) && r.grant.state.Confirmed? && r.requestId in settled then settled[r.requestId] else 0
  }

  // ---- The invariants ----

  ghost predicate Coherent(t: Tables) {
    && |t.claims| == |t.grants|
    && (forall i, j :: 0 <= i < j < |t.grants| ==> t.grants[i].requestId != t.grants[j].requestId)
    && (forall i :: 0 <= i < |t.grants| ==> ClaimFollowsGrant(t, i))
    && (forall i, j :: 0 <= i < j < |t.claims| ==> !SameActiveSlot(t.claims[i], t.claims[j]))
  }

  ghost predicate ClaimFollowsGrant(t: Tables, i: nat)
    requires i < |t.grants| == |t.claims|
  {
    var r, c := t.grants[i], t.claims[i];
    && r.grant.grantId == c.grantId == Uuid5Grant(r.requestId)
    && r.requestId in t.requests
    && c.customerId == r.customerId && c.windowId == r.windowId
    && c.state == r.grant.state
    && (c.releasedAt.Some? <==> Releasing(c.state))
  }

  ghost predicate SameActiveSlot(a: Claim, b: Claim) {
    a.customerId == b.customerId && a.windowId == b.windowId && CapacityConsuming(a.state) && CapacityConsuming(b.state)
  }

  ghost function ExpectedPool(t: Tables, settled: Settlements, pristine: Pool, owner: Option<CustomerId>,
                              w: Window): Pool
  {
    pristine.(reservedPaise := Sum(t.grants, Reserving(owner, w)),
              spentPaise := Sum(t.grants, Spending(settled, owner, w)))
  }

  ghost predicate Conserved(world: World, t: Tables, settled: Settlements) {
    && (forall w :: MerchantPool(world, t, w) == ExpectedPool(t, settled, FreshMerchantPool(world), None, w))
    && (forall c, w :: CustomerPool(world, t, c, w)
          == ExpectedPool(t, settled, FreshCustomerPool(world, c), Some(c), w))
  }

  ghost predicate Solvent(world: World, t: Tables) {
    && (forall w :: MerchantRemaining(world, t, w) >= 0)
    && (forall c, w :: CustomerRemaining(world, t, c, w) >= 0)
  }

  // ---- Finding a grant or its claim by identifier ----

  lemma FoundAt(t: Tables, i: nat)
    requires Coherent(t) && i < |t.grants|
    ensures FindGrant(t.grants, t.grants[i].grant.grantId) == Some(i)
    ensures FindRequest(t.grants, t.grants[i].requestId) == Some(i)
    ensures FindClaimFrom(t.claims, t.grants[i].grant.grantId, 0) == Some(i)
  {
    assert ClaimFollowsGrant(t, i);
    var g := FindGrant(t.grants, t.grants[i].grant.grantId);
    var q := FindRequest(t.grants, t.grants[i].requestId);
    var k := FindClaimFrom(t.claims, t.grants[i].grant.grantId, 0);
    assert t.claims[i].grantId == t.grants[i].grant.grantId;
    assert g.Some? && q.Some? && k.Some?;
    assert ClaimFollowsGrant(t, g.value) && ClaimFollowsGrant(t, k.value);
  }

  // ---- Pools ----

  lemma TouchKeepsPools(world: World, t: Tables, customer: CustomerId, w: Window)
    ensures var t' := Touch(world, t, customer, w);
            && (forall v :: MerchantPool(world, t', v) == MerchantPool(world, t, v))
            && (forall c, v :: CustomerPool(world, t', c, v) == CustomerPool(world, t, c, v))
            && (forall v :: MerchantRemaining(world, t', v) == MerchantRemaining(world, t, v))
            && (forall c, v :: CustomerRemaining(world, t', c, v) == CustomerRemaining(world, t, c, v))
            && t'.grants == t.grants && t'.claims == t.claims && t'.requests == t.requests
  {
  }

  lemma BookChangesRemaining(world: World, t: Tables, customer: CustomerId, window: Window, reserve: int, spend: int)
    ensures var t' := Book(world, t, customer, window, reserve, spend);
            && (forall w :: MerchantRemaining(world, t', w)
                            == MerchantRemaining(world, t, w) - (if w == window then reserve + spend else 0))
            && (forall c, w :: CustomerRemaining(world, t', c, w)
                               == CustomerRemaining(world, t, c, w)
                                  - (if w == window && c == customer then reserve + spend else 0))
  {
  }

  lemma SamePoolsSameRemaining(world: World, t: Tables, t': Tables)
    requires t'.merchantPools == t.merchantPools && t'.customerPools == t.customerPools
    ensures forall w :: MerchantPool(world, t', w) == MerchantPool(world, t, w)
    ensures forall c, w :: CustomerPool(world, t', c, w) == CustomerPool(world, t, c, w)
    ensures forall w :: MerchantRemaining(world, t', w) == MerchantRemaining(world, t, w)
    ensures forall c, w :: CustomerRemaining(world, t', c, w) == CustomerRemaining(world, t, c, w)
  {
  }

  /** Booking one grant's change keeps both totals equal to the sums, if it is the change of the sums. */
  lemma BookKeepsConserved(world: World, t: Tables, settled: Settlements, t1: Tables, settled1: Settlements,
                           customer: CustomerId, window: Window, reserve: int, spend: int)
    requires Conserved(world, t, settled)
    requires t1.merchantPools == t.merchantPools && t1.customerPools == t.customerPools
    requires forall owner, w ::
               Sum(t1.grants, Reserving(owner, w)) - Sum(t.grants, Reserving(owner, w))
               == (if w == window && (owner.Some? ==> owner.value == customer) then reserve else 0)
    requires forall owner, w ::
               Sum(t1.grants, Spending(settled1, owner, w)) - Sum(t.grants, Spending(settled, owner, w))
               == (if w == window && (owner.Some? ==> owner.value == customer) then spend else 0)
    ensures Conserved(world, Book(world, t1, customer, window, reserve, spend), settled1)
  {
    var t2 := Book(world, t1, customer, window, reserve, spend);
    forall w
      ensures MerchantPool(world, t2, w) == ExpectedPool(t2, settled1, FreshMerchantPool(world), None, w)
    {
      assert MerchantPool(world, t, w) == ExpectedPool(t, settled, FreshMerchantPool(world), None, w);
    }
    forall c, w
      ensures CustomerPool(world, t2, c, w) == ExpectedPool(t2, settled1, FreshCustomerPool(world, c), Some(c), w)
    {
      assert CustomerPool(world, t, c, w) == ExpectedPool(t, settled, FreshCustomerPool(world, c), Some(c), w);
    }
  }

  // ---- Issuance ----

  lemma AdmitKeepsCoherent(world: World, t: Tables, c: Candidate, ceiling: nat, at: Instant)
    requires Coherent(t) && c.request.requestId in t.requests
    requires FindRequest(t.grants, c.request.requestId).None?
    requires !HasActiveClaim(t, c.customerId, c.windowId)
    ensures Coherent(Admit(world, t, c, ceiling, at))
  {
    var t' := Admit(world, t, c, ceiling, at);
    var n := |t.grants|;
    forall i | 0 <= i < |t'.grants| ensures ClaimFollowsGrant(t', i) {
      assert i < n ==> ClaimFollowsGrant(t, i);
    }
    forall i | 0 <= i < n ensures !SameActiveSlot(t'.claims[i], t'.claims[n]) {
      assert !IsActiveClaim(t.claims[i], c.customerId, c.windowId);
    }
  }

  lemma AdmitKeepsConserved(world: World, t: Tables, settled: Settlements, c: Candidate, ceiling: nat, at: Instant)
    requires Conserved(world, t, settled)
    ensures Conserved(world, Admit(world, t, c, ceiling, at), settled)
  {
    var r := GrantRecord(NewGrant(c, ceiling), c.request.requestId, c.customerId, c.windowId);
    var t1 := t.(grants := t.grants + [r],
                 claims := t.claims + [Claim(r.grant.grantId, c.customerId, c.windowId, Reserved, at, None)]);
    forall owner, w ensures
      && Sum(t1.grants, Reserving(owner, w)) == Sum(t.grants, Reserving(owner, w)) + Reserving(owner, w)(r)
      && Sum(t1.grants, Spending(settled, owner, w)) == Sum(t.grants, Spending(settled, owner, w))
    {
      SumAppend(t.grants, r, Reserving(owner, w));
      SumAppend(t.grants, r, Spending(settled, owner, w));
    }
    BookKeepsConserved(world, t, settled, t1, settled, c.customerId, c.windowId, ceiling, 0);
  }

  /** Before the refusals are even considered, issuance has touched both pools and kept the request. */
  lemma PreparedForIssue(world: World, t: Tables, settled: Settlements, c: Candidate)
    requires Coherent(t) && Conserved(world, t, settled)
    ensures var t1 := Touch(world, Remember(t, c.request), c.customerId, c.windowId);
            && Coherent(t1) && Conserved(world, t1, settled)
            && t1.grants == t.grants && t1.claims == t.claims && c.request.requestId in t1.requests
            && (forall w :: MerchantRemaining(world, t1, w) == MerchantRemaining(world, t, w))
            && (forall o, w :: CustomerRemaining(world, t1, o, w) == CustomerRemaining(world, t, o, w))
  {
    var t0 := Remember(t, c.request);
    TouchKeepsPools(world, t0, c.customerId, c.windowId);
    var t1 := Touch(world, t0, c.customerId, c.windowId);
    forall i | 0 <= i < |t.grants| ensures ClaimFollowsGrant(t1, i) {
      assert ClaimFollowsGrant(t, i);
    }
    SamePoolsSameRemaining(world, t, t0);
    SameTotalsKeepConserved(world, t, t1, settled);
  }

  lemma IssueKeepsInvariants(world: World, t: Tables, settled: Settlements, c: Candidate, bps: int, at: Instant)
    requires Coherent(t) && Conserved(world, t, settled)
    ensures Coherent(IssueGrant(world, t, c, bps, at).1)
    ensures Conserved(world, IssueGrant(world, t, c, bps, at).1, settled)
  {
    if FindRequest(t.grants, c.request.requestId).None? {
      var t1 := Touch(world, Remember(t, c.request), c.customerId, c.windowId);
      PreparedForIssue(world, t, settled, c);
      if Refusal(world, t1, c.customerId, c.windowId, at).None? {
        var ceiling := CeilingFor(world, t1, c, bps);
        AdmitKeepsCoherent(world, t1, c, ceiling, at);
        AdmitKeepsConserved(world, t1, settled, c, ceiling, at);
      }
    }
  }

  /** What a first-time grant takes from the pools is its ceiling, and only in its own window. */
  lemma IssueChangesRemaining(world: World, t: Tables, c: Candidate, bps: int, at: Instant)
    ensures var (r, t') := IssueGrant(world, t, c, bps, at);
            var taken := if FindRequest(t.grants, c.request.requestId).None? && r.GrantIssued? then r.grant.ceilingPaise
                else 0;
            && (taken != 0 ==> && taken <= MerchantRemaining(world, t, c.windowId)
                               && taken <= CustomerRemaining(world, t, c.customerId, c.windowId))
            && (forall w :: MerchantRemaining(world, t', w)
                            == MerchantRemaining(world, t, w) - (if w == c.windowId then taken else 0))
            && (forall o, w :: CustomerRemaining(world, t', o, w)
                               == CustomerRemaining(world, t, o, w)
                                  - (if w == c.windowId && o == c.customerId then taken else 0))
  {
    var t1 := Touch(world, Remember(t, c.request), c.customerId, c.windowId);
    SamePoolsSameRemaining(world, t, Remember(t, c.request));
    TouchKeepsPools(world, Remember(t, c.request), c.customerId, c.windowId);
    if FindRequest(t.grants, c.request.requestId).None?
       && Refusal(world, t1, c.customerId, c.windowId, at).None? {
      var ceiling := CeilingFor(world, t1, c, bps);
      DowngradeFits(IncentiveCeilingPaise(c.item.amountPaise, bps),
                    MerchantRemaining(world, t1, c.windowId), CustomerRemaining(world, t1, c.customerId, c.windowId));
      var grant := NewGrant(c, ceiling);
      var t2 := t1.(grants := t1.grants + [GrantRecord(grant, c.request.requestId, c.customerId, c.windowId)],
                    claims := t1.claims + [Claim(grant.grantId, c.customerId, c.windowId, Reserved, at, None)]);
      SamePoolsSameRemaining(world, t1, t2);
      BookChangesRemaining(world, t2, c.customerId, c.windowId, ceiling, 0);
    }
  }

  lemma IssueKeepsSolvent(world: World, t: Tables, c: Candidate, bps: int, at: Instant)
    requires Solvent(world, t)
    ensures Solvent(world, IssueGrant(world, t, c, bps, at).1)
  {
    IssueChangesRemaining(world, t, c, bps, at);
  }

  // ---- Lifecycle ----

  ghost function SettledBy(settled: Settlements, t: Tables, id: GrantId, step: Step): Settlements {
    var found := FindGrant(t.grants, id);
    if step.Confirm? && found.Some? && t.grants[found.value].grant.state.Executing?
    then settled[t.grants[found.value].requestId := step.spendPaise]
    else settled
  }

  lemma MoveKeepsCoherent(t: Tables, i: nat, to: GrantState, at: Instant)
    requires Coherent(t) && i < |t.grants| && LegalTransition(t.grants[i].grant.state, to)
    ensures var t' := UpdateGrantState(t, i, to, at);
            Coherent(t') && t'.claims == t.claims[i := MoveClaim(t.claims[i], to, at)]
  {
    FoundAt(t, i);
    var t' := UpdateGrantState(t, i, to, at);
    forall j | 0 <= j < |t'.grants| ensures ClaimFollowsGrant(t', j) {
      assert ClaimFollowsGrant(t, j);
    }
    assert ClaimFollowsGrant(t, i);
    forall j, k | 0 <= j < k < |t'.claims| ensures !SameActiveSlot(t'.claims[j], t'.claims[k]) {
      assert !SameActiveSlot(t.claims[j], t.claims[k]);
    }
  }

  lemma MoveChangesSums(t: Tables, i: nat, step: Step, at: Instant, settled: Settlements, settled': Settlements,
                        owner: Option<CustomerId>, w: Window)
    requires Coherent(t) && i < |t.grants| && LegalTransition(t.grants[i].grant.state, step.Target())
    requires settled' == (if step.Confirm? then settled[t.grants[i].requestId := step.spendPaise] else settled)
    ensures var grants' := UpdateGrantState(t, i, step.Target(), at).grants;
            var here := InScope(t.grants[i], owner, w);
            && Sum(grants', Reserving(owner, w)) - Sum(t.grants, Reserving(owner, w))
               == (if here && !step.Execute? then 0 - t.grants[i].grant.ceilingPaise else 0)
            && Sum(grants', Spending(settled', owner, w)) - Sum(t.grants, Spending(settled, owner, w))
               == (if here && step.Confirm? then step.spendPaise else 0)
  {
    var r := t.grants[i];
    var r' := r.(grant := r.grant.(state := step.Target()));
    var grants' := UpdateGrantState(t, i, step.Target(), at).grants;
    SumUpdate(t.grants, i, r', Reserving(owner, w));
    SumUpdate(t.grants, i, r', Spending(settled, owner, w));
    // The i-th grant was not confirmed before, so only its own term can notice the new settlement.
    SumUpdate(grants', i, r, Spending(settled', owner, w));
    SumUpdate(t.grants, i, r', Spending(settled', owner, w));
    forall g | g in t.grants
      ensures Spending(settled, owner, w)(g) == Spending(settled', owner, w)(g)
    {
      var j :| 0 <= j < |t.grants| && t.grants[j] == g;
    }
    SumCongruence(t.grants, Spending(settled, owner, w), Spending(settled', owner, w));
  }

  lemma TransitionKeepsCoherent(world: World, t: Tables, id: GrantId, step: Step, at: Instant)
    requires Coherent(t) && Transition(world, t, id, step, at).Ok?
    ensures Coherent(Transition(world, t, id, step, at).value)
  {
    var i := FindGrant(t.grants, id).value;
    var r := t.grants[i];
    if r.grant.state != step.Target() {
      MoveKeepsCoherent(t, i, step.Target(), at);
      SameRecordsKeepCoherent(UpdateGrantState(t, i, step.Target(), at), Transition(world, t, id, step, at).value);
    }
  }

  lemma SameRecordsKeepCoherent(t: Tables, t': Tables)
    requires Coherent(t) && t'.grants == t.grants && t'.claims == t.claims && t'.requests == t.requests
    ensures Coherent(t')
  {
    forall i | 0 <= i < |t.grants| ensures ClaimFollowsGrant(t', i) {
      assert ClaimFollowsGrant(t, i);
    }
  }

  lemma MoveKeepsConserved(world: World, t: Tables, settled: Settlements, i: nat, step: Step, at: Instant)
    requires Coherent(t) && Conserved(world, t, settled) && i < |t.grants|
    requires LegalTransition(t.grants[i].grant.state, step.Target())
    ensures var r := t.grants[i];
            Conserved(world, Book(world, UpdateGrantState(t, i, step.Target(), at), r.customerId, r.windowId,
                                  if step.Execute? then 0 else 0 - r.grant.ceilingPaise,
                                  if step.Confirm? then step.spendPaise else 0),
                      SettledBy(settled, t, r.grant.grantId, step))
  {
    var r := t.grants[i];
    FoundAt(t, i);
    var settled' := SettledBy(settled, t, r.grant.grantId, step);
    var t1 := UpdateGrantState(t, i, step.Target(), at);
    var reserve := if step.Execute? then 0 else 0 - r.grant.ceilingPaise;
    var spend := if step.Confirm? then step.spendPaise else 0;
    forall owner, w ensures
      && Sum(t1.grants, Reserving(owner, w)) - Sum(t.grants, Reserving(owner, w))
         == (if w == r.windowId && (owner.Some? ==> owner.value == r.customerId) then reserve else 0)
      && Sum(t1.grants, Spending(settled', owner, w)) - Sum(t.grants, Spending(settled, owner, w))
         == (if w == r.windowId && (owner.Some? ==> owner.value == r.customerId) then spend else 0)
    {
      MoveChangesSums(t, i, step, at, settled, settled', owner, w);
    }
    BookKeepsConserved(world, t, settled, t1, settled', r.customerId, r.windowId, reserve, spend);
  }

  lemma TransitionKeepsConserved(world: World, t: Tables, settled: Settlements, id: GrantId, step: Step, at: Instant)
    requires Coherent(t) && Conserved(world, t, settled) && Transition(world, t, id, step, at).Ok?
    ensures Conserved(world, Transition(world, t, id, step, at).value, SettledBy(settled, t, id, step))
  {
    var i := FindGrant(t.grants, id).value;
    var r := t.grants[i];
    if r.grant.state != step.Target() {
      MoveKeepsConserved(world, t, settled, i, step, at);
      if step.Execute? {
        var t1 := UpdateGrantState(t, i, step.Target(), at);
        TouchKeepsPools(world, t1, r.customerId, r.windowId);
        assert Book(world, t1, r.customerId, r.windowId, 0, 0) == Touch(world, t1, r.customerId, r.windowId);
        SameTotalsKeepConserved(world, Touch(world, t1, r.customerId, r.windowId), t1, SettledBy(settled, t, id, step));
      }
    }
  }

  lemma SameTotalsKeepConserved(world: World, t: Tables, t': Tables, settled: Settlements)
    requires Conserved(world, t, settled) && t'.grants == t.grants
    requires forall w :: MerchantPool(world, t, w) == MerchantPool(world, t', w)
    requires forall c, w :: CustomerPool(world, t, c, w) == CustomerPool(world, t', c, w)
    ensures Conserved(world, t', settled)
  {
    forall w ensures MerchantPool(world, t', w) == ExpectedPool(t', settled, FreshMerchantPool(world), None, w) {
      assert MerchantPool(world, t, w) == ExpectedPool(t, settled, FreshMerchantPool(world), None, w);
    }
    forall c, w
      ensures CustomerPool(world, t', c, w) == ExpectedPool(t', settled, FreshCustomerPool(world, c), Some(c), w)
    {
      assert CustomerPool(world, t, c, w) == ExpectedPool(t, settled, FreshCustomerPool(world, c), Some(c), w);
    }
  }

  /** Repeating a step is a no-op, whatever the repeated call's instant or spend. */
  lemma RepeatIsNoOp(world: World, t: Tables, id: GrantId, step: Step, again: Step, at: Instant, later: Instant)
    requires Coherent(t) && Transition(world, t, id, step, at).Ok? && again.Target() == step.Target()
    ensures var t' := Transition(world, t, id, step, at).value;
            Transition(world, t', id, again, later) == Ok(t')
  {
    var i := FindGrant(t.grants, id).value;
    var t' := Transition(world, t, id, step, at).value;
    if t.grants[i].grant.state != step.Target() {
      MoveKeepsCoherent(t, i, step.Target(), at);
      FoundAt(UpdateGrantState(t, i, step.Target(), at), i);
      assert t'.grants == UpdateGrantState(t, i, step.Target(), at).grants;
    }
  }

  // ---- Every reachable ledger ----

  datatype Op =
    | Issue(candidate: Candidate, bps: int, at: Instant)
    | Move(id: GrantId, step: Step, at: Instant)
    | Preview(customer: CustomerId, window: Window)
    | Deny(risk: RiskId)

  ghost function Apply(world: World, t: Tables, op: Op): Tables {
    match op
    case Issue(c, bps, at) => IssueGrant(world, t, c, bps, at).1
    case Move(id, step, at) =>
      var r := Transition(world, t, id, step, at);
      if r.Ok? then r.value else t
    case Preview(c, w) => Touch(world, t, c, w)
    case Deny(risk) => MarkDenied(t, risk)
  }

  ghost function Reached(world: World, ops: seq<Op>): Tables {
    if ops == [] then EMPTY else Apply(world, Reached(world, ops[..|ops| - 1]), ops[|ops| - 1])
  }

  ghost function Settled(world: World, ops: seq<Op>): Settlements {
    if ops == [] then map[] else
      var settled, t, op := Settled(world, ops[..|ops| - 1]), Reached(world, ops[..|ops| - 1]), ops[|ops| - 1];
      if op.Move? then SettledBy(settled, t, op.id, op.step) else settled
  }

  lemma ApplyKeepsInvariants(world: World, t: Tables, settled: Settlements, op: Op)
    requires Coherent(t) && Conserved(world, t, settled)
    ensures Coherent(Apply(world, t, op))
    ensures Conserved(world, Apply(world, t, op), if op.Move? then SettledBy(settled, t, op.id, op.step) else settled)
  {
    match op
    case Issue(c, bps, at) => IssueKeepsInvariants(world, t, settled, c, bps, at);
    case Move(id, step, at) =>
      if Transition(world, t, id, step, at).Ok? {
        TransitionKeepsCoherent(world, t, id, step, at);
        TransitionKeepsConserved(world, t, settled, id, step, at);
      }
    case Preview(c, w) =>
      TouchKeepsPools(world, t, c, w);
      SameRecordsKeepCoherent(t, Touch(world, t, c, w));
      SameTotalsKeepConserved(world, t, Touch(world, t, c, w), settled);
    case Deny(risk) =>
      SamePoolsSameRemaining(world, t, MarkDenied(t, risk));
      SameRecordsKeepCoherent(t, MarkDenied(t, risk));
      SameTotalsKeepConserved(world, t, MarkDenied(t, risk), settled);
  }

  /**
   * Conservation in every reachable state: in both pools, reserved is the sum of the ceilings of the
   * grants still holding one, spent is the sum of the settled spends of the confirmed ones, and
   * every claim is in its grant's state.
   */
  lemma {:induction false} EveryReachableLedgerIsConserved(world: World, ops: seq<Op>)
    ensures Coherent(Reached(world, ops)) && Conserved(world, Reached(world, ops), Settled(world, ops))
  {
    if ops == [] {
      assert forall w :: MerchantPool(world, EMPTY, w) == FreshMerchantPool(world);
      assert forall c, w :: CustomerPool(world, EMPTY, c, w) == FreshCustomerPool(world, c);
    } else {
      EveryReachableLedgerIsConserved(world, ops[..|ops| - 1]);
      ApplyKeepsInvariants(world, Reached(world, ops[..|ops| - 1]), Settled(world, ops[..|ops| - 1]), ops[|ops| - 1]);
    }
  }

  /** A settlement that books no more than the grant it settles had reserved. */
  ghost predicate WithinReservation(t: Tables, op: Op) {
    op.Move? && op.step.Confirm? && FindGrant(t.grants, op.id).Some? ==>
      0 <= op.step.spendPaise <= t.grants[FindGrant(t.grants, op.id).value].grant.ceilingPaise
  }

  lemma TransitionChangesRemaining(world: World, t: Tables, id: GrantId, step: Step, at: Instant)
    requires Transition(world, t, id, step, at).Ok?
    ensures var r := t.grants[FindGrant(t.grants, id).value];
            var t' := Transition(world, t, id, step, at).value;
            var freed := if r.grant.state == step.Target() || step.Execute? then 0
                         else r.grant.ceilingPaise - (if step.Confirm? then step.spendPaise else 0);
            && (forall w :: MerchantRemaining(world, t', w)
                            == MerchantRemaining(world, t, w) + (if w == r.windowId then freed else 0))
            && (forall c, w :: CustomerRemaining(world, t', c, w)
                               == CustomerRemaining(world, t, c, w)
                                  + (if w == r.windowId && c == r.customerId then freed else 0))
  {
    var i := FindGrant(t.grants, id).value;
    var r := t.grants[i];
    if r.grant.state != step.Target() {
      var t1 := UpdateGrantState(t, i, step.Target(), at);
      SamePoolsSameRemaining(world, t, t1);
      BookChangesRemaining(world, t1, r.customerId, r.windowId, 0 - r.grant.ceilingPaise,
                           if step.Confirm? then step.spendPaise else 0);
    }
  }

  lemma ApplyKeepsSolvent(world: World, t: Tables, op: Op)
    requires Solvent(world, t) && WithinReservation(t, op)
    ensures Solvent(world, Apply(world, t, op))
  {
    match op
    case Issue(c, bps, at) => IssueKeepsSolvent(world, t, c, bps, at);
    case Move(id, step, at) =>
      if Transition(world, t, id, step, at).Ok? {
        TransitionChangesRemaining(world, t, id, step, at);
      }
    case Preview(c, w) => TouchKeepsPools(world, t, c, w);
    case Deny(risk) => SamePoolsSameRemaining(world, t, MarkDenied(t, risk));
  }

  ghost predicate FundedWorld(world: World) {
    world.merchantBudgetPaise >= 0
  }

  lemma {:induction false} TotalAmountNonNegative(items: seq<RiskItem>)
    ensures TotalAmount(items) >= 0
  {
    if items != [] {
      TotalAmountNonNegative(items[1..]);
    }
  }

  /** No pool is ever overdrawn, provided settlements stay within their reservations. */
  lemma {:induction false} EveryReachableLedgerIsSolvent(world: World, ops: seq<Op>)
    requires FundedWorld(world)
    requires forall k :: 0 <= k < |ops| ==> WithinReservation(Reached(world, ops[..k]), ops[k])
    ensures Solvent(world, Reached(world, ops))
  {
    if ops == [] {
      forall c, w ensures CustomerRemaining(world, EMPTY, c, w) >= 0 {
        TotalAmountNonNegative(RiskItemsFor(world, c));
      }
    } else {
      var n := |ops| - 1;
      forall k | 0 <= k < n ensures WithinReservation(Reached(world, ops[..n][..k]), ops[..n][k]) {
        assert ops[..n][..k] == ops[..k];
      }
      EveryReachableLedgerIsSolvent(world, ops[..n]);
      ApplyKeepsSolvent(world, Reached(world, ops[..n]), ops[n]);
    }
  }

  /**
   * The ledger itself does not check a settlement.  A confirmation leaves the merchant's and the
   * customer's pools solvent exactly when the excess over the reservation fits what remains.
   */
  lemma ConfirmKeepsSolventIff(world: World, t: Tables, id: GrantId, spend: int, at: Instant)
    requires Solvent(world, t) && FindGrant(t.grants, id).Some?
    requires t.grants[FindGrant(t.grants, id).value].grant.state.Executing?
    ensures var r := t.grants[FindGrant(t.grants, id).value];
            var excess := spend - r.grant.ceilingPaise;
            Solvent(world, Transition(world, t, id, Confirm(spend), at).value) <==>
            excess <= MerchantRemaining(world, t, r.windowId)
              && excess <= CustomerRemaining(world, t, r.customerId, r.windowId)
  {
    TransitionChangesRemaining(world, t, id, Confirm(spend), at);
  }

  lemma ReachedByThree(world: World, a: Op, b: Op, c: Op)
    ensures Reached(world, [a, b, c]) == Apply(world, Apply(world, Apply(world, EMPTY, a), b), c)
  {
    hide Apply;
    assert [a][..0] == [] && [a, b][..1] == [a] && [a, b, c][..2] == [a, b];
    assert Reached(world, [a]) == Apply(world, EMPTY, a);
  }

  lemma OnlyGrantMoves(world: World, t: Tables, step: Step, at: Instant)
    requires |t.grants| == 1 && LegalTransition(t.grants[0].grant.state, step.Target())
    ensures var r, t' := t.grants[0], Apply(world, t, Move(t.grants[0].grant.grantId, step, at));
            var freed := if step.Execute? then 0
                else r.grant.ceilingPaise - (if step.Confirm? then step.spendPaise else 0);
            && t'.grants == [r.(grant := r.grant.(state := step.Target()))]
            && MerchantRemaining(world, t', r.windowId) == MerchantRemaining(world, t, r.windowId) + freed
            && CustomerRemaining(world, t', r.customerId, r.windowId)
               == CustomerRemaining(world, t, r.customerId, r.windowId) + freed
  {
    assert FindGrant(t.grants, t.grants[0].grant.grantId) == Some(0);
    hide FindGrant;
    TransitionChangesRemaining(world, t, t.grants[0].grant.grantId, step, at);
  }

  lemma FirstGrant(world: World, c: Candidate, bps: int, at: Instant)
    requires IssueGrant(world, EMPTY, c, bps, at).0.GrantIssued?
    ensures var (r, t) := IssueGrant(world, EMPTY, c, bps, at);
            && t.grants == [GrantRecord(r.grant, c.request.requestId, c.customerId, c.windowId)]
            && r.grant.grantId == Uuid5Grant(c.request.requestId) && r.grant.state.Reserved?
  {
    hide Refusal, CeilingFor, MerchantPool, CustomerPool;
  }

  /**
   * The first grant of all, executed and confirmed: what is left is the budgets less the spend,
   * whatever was reserved.
   */
  lemma FirstSpend(world: World, c: Candidate, bps: int, at: Instant, spend: int)
    requires IssueGrant(world, EMPTY, c, bps, at).0.GrantIssued?
    ensures var id := Uuid5Grant(c.request.requestId);
            var t := Reached(world, [Issue(c, bps, at), Move(id, Execute, at), Move(id, Confirm(spend), at)]);
            && MerchantRemaining(world, t, c.windowId) == MerchantRemaining(world, EMPTY, c.windowId) - spend
            && CustomerRemaining(world, t, c.customerId, c.windowId)
               == CustomerRemaining(world, EMPTY, c.customerId, c.windowId) - spend
  {
    var id := Uuid5Grant(c.request.requestId);
    ReachedByThree(world, Issue(c, bps, at), Move(id, Execute, at), Move(id, Confirm(spend), at));
    FirstGrant(world, c, bps, at);
    IssueChangesRemaining(world, EMPTY, c, bps, at);
    var t1 := Apply(world, EMPTY, Issue(c, bps, at));
    assert t1 == IssueGrant(world, EMPTY, c, bps, at).1;
    hide Apply, IssueGrant, Reached, MerchantRemaining, CustomerRemaining;
    OnlyGrantMoves(world, t1, Execute, at);
    OnlyGrantMoves(world, Apply(world, t1, Move(id, Execute, at)), Confirm(spend), at);
  }

  /**
   * An item of 2000 paise at 500 bps, and a merchant that can pay for just that: the grant reserves
   * 100 paise, is confirmed at 101, and both pools end one paisa overdrawn.
   */
  lemma OverspendingOverdraws(world: World, c: Candidate, at: Instant)
    requires c.item.amountPaise == 2_000 && RiskItemsFor(world, c.customerId) == [c.item]
             && world.merchantBudgetPaise == 100
    ensures var id := Uuid5Grant(c.request.requestId);
            var t := Reached(world, [Issue(c, 500, at), Move(id, Execute, at), Move(id, Confirm(101), at)]);
            && MerchantRemaining(world, t, c.windowId) == -1
               && CustomerRemaining(world, t, c.customerId, c.windowId) == -1
            && !Solvent(world, t)
  {
    assert [c.item][1..] == [] && TotalAmount(RiskItemsFor(world, c.customerId)) == 2_000;
    assert IssueGrant(world, EMPTY, c, 500, at).0.GrantIssued?;
    FirstSpend(world, c, 500, at, 101);
    hide Reached, IssueGrant;
  }

  /** A later record of the same grant: the same but for a legal move, and none out of a terminal state. */
  ghost predicate Follows(before: GrantRecord, after: GrantRecord) {
    && after.(grant := before.grant) == before
    && after.grant.(state := before.grant.state) == before.grant
    && (after.grant.state != before.grant.state ==> LegalTransition(before.grant.state, after.grant.state))
    && (before.grant.state in {Confirmed, RolledBack, Expired} ==> after == before)
  }

  lemma MoveFollows(world: World, t: Tables, id: GrantId, step: Step, at: Instant, i: nat)
    requires i < |t.grants| && Transition(world, t, id, step, at).Ok?
    ensures var t' := Transition(world, t, id, step, at).value;
            |t'.grants| == |t.grants| && Follows(t.grants[i], t'.grants[i])
  {
  }

  lemma IssueAppends(world: World, t: Tables, c: Candidate, bps: int, at: Instant, i: nat)
    requires i < |t.grants|
    ensures var t' := IssueGrant(world, t, c, bps, at).1;
            |t'.grants| >= |t.grants| && t'.grants[i] == t.grants[i]
  {
  }

  /** Grants are never lost or reordered, and a terminal one never changes again. */
  lemma TerminalStatesAbsorb(world: World, t: Tables, op: Op, i: nat)
    requires i < |t.grants|
    ensures |Apply(world, t, op).grants| >= |t.grants| && Follows(t.grants[i], Apply(world, t, op).grants[i])
  {
    if op.Move? {
      if Transition(world, t, op.id, op.step, op.at).Ok? {
        MoveFollows(world, t, op.id, op.step, op.at, i);
      }
    } else if op.Issue? {
      IssueAppends(world, t, op.candidate, op.bps, op.at, i);
    }
  }

  /** A released grant frees its slot: once rolled back or expired it blocks nobody. */
  lemma ReleaseFreesTheSlot(world: World, t: Tables, i: nat, step: Step, at: Instant)
    requires Coherent(t) && i < |t.grants| && (step.Rollback? || step.Expire?)
    requires LegalTransition(t.grants[i].grant.state, step.Target())
    ensures var r := t.grants[i];
            var t' := Transition(world, t, r.grant.grantId, step, at);
            && t'.Ok?
            && HasActiveClaim(t, r.customerId, r.windowId)
            && !HasActiveClaim(t'.value, r.customerId, r.windowId)
            && MerchantRemaining(world, t'.value, r.windowId)
               == MerchantRemaining(world, t, r.windowId) + r.grant.ceilingPaise
            && CustomerRemaining(world, t'.value, r.customerId, r.windowId)
               == CustomerRemaining(world, t, r.customerId, r.windowId) + r.grant.ceilingPaise
  {
    var r := t.grants[i];
    FoundAt(t, i);
    assert ClaimFollowsGrant(t, i);
    assert IsActiveClaim(t.claims[i], r.customerId, r.windowId);
    MoveKeepsCoherent(t, i, step.Target(), at);
    var t' := Transition(world, t, r.grant.grantId, step, at).value;
    assert t'.claims == t.claims[i := MoveClaim(t.claims[i], step.Target(), at)];
    forall j | 0 <= j < |t'.claims| ensures !IsActiveClaim(t'.claims[j], r.customerId, r.windowId) {
      if j < i {
        assert !SameActiveSlot(t.claims[j], t.claims[i]);
      } else if i < j {
        assert !SameActiveSlot(t.claims[i], t.claims[j]);
      }
    }
  }
}
