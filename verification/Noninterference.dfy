/**
 * Decisions cannot depend on outcomes.  Settlement does change the margin pools, but only those of
 * the window being settled, and no later decision ever asks about that window again.
 */
module Noninterference {
  import opened Allocator
  import opened AllocatorProperties
  import opened Clock
  import opened Contracts
  import opened HardFilter
  import opened Ledger
  import opened LedgerInvariants
  import opened Margin
  import opened Sorting
  import opened WindowEffects
  import opened WindowLoop
  import opened Wrappers

  /** Ledgers that differ at most in the margin pools of windows before `w`. */
  ghost predicate AgreeFrom(world: World, a: Tables, b: Tables, w: Window) {
    && a.requests == b.requests && a.grants == b.grants && a.claims == b.claims && a.deniedRiskIds == b.deniedRiskIds
    && (forall v :: v >= w ==> MerchantPool(world, a, v) == MerchantPool(world, b, v))
    && (forall c, v :: v >= w ==> CustomerPool(world, a, c, v) == CustomerPool(world, b, c, v))
  }

  ghost predicate ScoredAt(scored: seq<Scored>, w: Window) {
    forall x :: x in scored ==> x.1.windowId == w
  }

  // ---- Ledger operations ----

  lemma {:induction false} OpenAmountsAgree(
    a: Tables, b: Tables, items: seq<RiskItem>, customer: CustomerId, at: Instant, excluded: RiskId)
    requires a.requests == b.requests && a.grants == b.grants && a.deniedRiskIds == b.deniedRiskIds
    ensures OpenAmounts(a, items, customer, at, excluded) == OpenAmounts(b, items, customer, at, excluded)
  {
    if items != [] {
      OpenAmountsAgree(a, b, items[1..], customer, at, excluded);
    }
  }

  lemma ScoreAgrees(s: Setup, a: Tables, b: Tables, c: Candidate, bps: int, at: Instant, w: Window)
    requires AgreeFrom(s.world, a, b, w)
    ensures ScoreNow(s, a, c, bps, at) == ScoreNow(s, b, c, bps, at)
  {
    OpenAmountsAgree(a, b, RiskItemsFor(s.world, c.customerId), c.customerId, at, c.item.riskId);
  }

  lemma TouchAgrees(world: World, a: Tables, b: Tables, customer: CustomerId, v: Window, w: Window)
    requires AgreeFrom(world, a, b, w)
    ensures AgreeFrom(world, Touch(world, a, customer, v), Touch(world, b, customer, v), w)
  {
    TouchKeepsPools(world, a, customer, v);
    TouchKeepsPools(world, b, customer, v);
  }

  lemma BookAgrees(world: World, a: Tables, b: Tables, customer: CustomerId, v: Window, reserve: int, spend: int,
                   spend': int, w: Window)
    requires AgreeFrom(world, a, b, w)
    requires spend == spend' || v < w
    ensures AgreeFrom(world, Book(world, a, customer, v, reserve, spend), Book(world, b, customer, v, reserve, spend'),
                      w)
  {
    var a1, b1 := Book(world, a, customer, v, reserve, spend), Book(world, b, customer, v, reserve, spend');
    forall u | u >= w ensures MerchantPool(world, a1, u) == MerchantPool(world, b1, u) {
      assert MerchantPool(world, a, u) == MerchantPool(world, b, u);
    }
    forall c, u | u >= w ensures CustomerPool(world, a1, c, u) == CustomerPool(world, b1, c, u) {
      assert CustomerPool(world, a, c, u) == CustomerPool(world, b, c, u);
    }
  }

  /** Tables that differ only in their bookkeeping agree as the originals do. */
  lemma SameBooksAgree(world: World, a: Tables, b: Tables, a': Tables, b': Tables, w: Window)
    requires AgreeFrom(world, a, b, w)
    requires a'.merchantPools == a.merchantPools && a'.customerPools == a.customerPools
    requires b'.merchantPools == b.merchantPools && b'.customerPools == b.customerPools
    requires a'.requests == b'.requests && a'.grants == b'.grants && a'.claims == b'.claims
             && a'.deniedRiskIds == b'.deniedRiskIds
    ensures AgreeFrom(world, a', b', w)
  {
    SamePoolsSameRemaining(world, a, a');
    SamePoolsSameRemaining(world, b, b');
  }

  lemma AdmitAgrees(world: World, a: Tables, b: Tables, c: Candidate, ceiling: nat, at: Instant, w: Window)
    requires AgreeFrom(world, a, b, w)
    ensures AgreeFrom(world, Admit(world, a, c, ceiling, at), Admit(world, b, c, ceiling, at), w)
  {
    var grant := NewGrant(c, ceiling);
    var record := GrantRecord(grant, c.request.requestId, c.customerId, c.windowId);
    var claim := Claim(grant.grantId, c.customerId, c.windowId, Reserved, at, None);
    var a1 := a.(grants := a.grants + [record], claims := a.claims + [claim]);
    var b1 := b.(grants := b.grants + [record], claims := b.claims + [claim]);
    SameBooksAgree(world, a, b, a1, b1, w);
    BookAgrees(world, a1, b1, c.customerId, c.windowId, ceiling, 0, 0, w);
  }

  lemma JudgedAlike(world: World, a: Tables, b: Tables, c: Candidate, bps: int, at: Instant, w: Window)
    requires AgreeFrom(world, a, b, w) && c.windowId >= w
    ensures Refusal(world, a, c.customerId, c.windowId, at) == Refusal(world, b, c.customerId, c.windowId, at)
    ensures CeilingFor(world, a, c, bps) == CeilingFor(world, b, c, bps)
  {
  }

  lemma IssueAgrees(world: World, a: Tables, b: Tables, c: Candidate, bps: int, at: Instant, w: Window)
    requires AgreeFrom(world, a, b, w) && c.windowId >= w
    ensures var (ra, a') := IssueGrant(world, a, c, bps, at);
            var (rb, b') := IssueGrant(world, b, c, bps, at);
            ra == rb && AgreeFrom(world, a', b', w)
  {
    var a1, b1 := Remember(a, c.request), Remember(b, c.request);
    SameBooksAgree(world, a, b, a1, b1, w);
    TouchAgrees(world, a1, b1, c.customerId, c.windowId, w);
    var a2, b2 := Touch(world, a1, c.customerId, c.windowId), Touch(world, b1, c.customerId, c.windowId);
    JudgedAlike(world, a2, b2, c, bps, at, w);
    AdmitAgrees(world, a2, b2, c, CeilingFor(world, a2, c, bps), at, w);
  }

  lemma LegalTransitionAgrees(world: World, a: Tables, b: Tables, i: nat, step: Step, step': Step, at: Instant,
                              w: Window)
    requires AgreeFrom(world, a, b, w) && i < |a.grants| && step.Target() == step'.Target()
    requires step == step' || a.grants[i].windowId < w
    ensures var r := a.grants[i];
            AgreeFrom(world, BookStep(world, UpdateGrantState(a, i, step.Target(), at), r, step),
                      BookStep(world, UpdateGrantState(b, i, step.Target(), at), r, step'), w)
  {
    var r := a.grants[i];
    var a1, b1 := UpdateGrantState(a, i, step.Target(), at), UpdateGrantState(b, i, step.Target(), at);
    SameBooksAgree(world, a, b, a1, b1, w);
    if step.Confirm? {
      BookAgrees(world, a1, b1, r.customerId, r.windowId, 0 - r.grant.ceilingPaise, step.spendPaise, step'.spendPaise,
                 w);
    } else if !step.Execute? {
      BookAgrees(world, a1, b1, r.customerId, r.windowId, 0 - r.grant.ceilingPaise, 0, 0, w);
    }
  }

  /** Confirming with different spends is invisible from the next window on. */
  lemma TransitionAgrees(world: World, a: Tables, b: Tables, id: GrantId, step: Step, step': Step, at: Instant,
                         w: Window)
    requires AgreeFrom(world, a, b, w) && step.Target() == step'.Target()
    requires step == step' || forall r :: r in a.grants ==> r.windowId < w
    ensures var ra, rb := Transition(world, a, id, step, at), Transition(world, b, id, step', at);
            && (ra.Ok? <==> rb.Ok?)
            && (ra.Ok? ==> AgreeFrom(world, ra.value, rb.value, w))
            && (ra.Err? ==> ra == rb)
  {
    var found := FindGrant(a.grants, id);
    if found.Some? {
      assert a.grants[found.value] in a.grants;
      LegalTransitionAgrees(world, a, b, found.value, step, step', at, w);
    }
  }

  // ---- The allocator ----

  lemma {:induction false} AdmitAllAgrees(s: Setup, at: Instant, a: Admission, b: Tables, cands: seq<Candidate>,
                                          w: Window)
    requires AgreeFrom(s.world, a.tables, b, w)
    ensures var ra, rb := AdmitAll(s, at, a, cands), AdmitAll(s, at, a.(tables := b), cands);
            AgreeFrom(s.world, ra.tables, rb.tables, w) && rb == ra.(tables := rb.tables)
    decreases |cands|
  {
    if cands != [] {
      ScoreAgrees(s, a.tables, b, cands[0], cands[0].request.maxIncentiveBps, at, w);
      var a1, b1 := AdmitOne(s, at, a, cands[0]), AdmitOne(s, at, a.(tables := b), cands[0]);
      SamePoolsSameRemaining(s.world, a.tables, a1.tables);
      SamePoolsSameRemaining(s.world, b, b1.tables);
      AdmitAllAgrees(s, at, a1, b1.tables, cands[1..], w);
    }
  }

  lemma AttemptOneAgrees(s: Setup, at: Instant, k: Contest, b: Tables, x: Scored, w: Window)
    requires AgreeFrom(s.world, k.tables, b, w) && x.1.windowId >= w
    ensures var ra, rb := AttemptOne(s, at, k, x), AttemptOne(s, at, k.(tables := b), x);
            AgreeFrom(s.world, ra.tables, rb.tables, w) && rb == ra.(tables := rb.tables)
  {
    var c := x.1;
    TouchAgrees(s.world, k.tables, b, c.customerId, c.windowId, w);
    var ta, tb := Touch(s.world, k.tables, c.customerId, c.windowId), Touch(s.world, b, c.customerId, c.windowId);
    var d := DowngradedFor(s, ta, c);
    assert d == DowngradedFor(s, tb, c);
    ScoreAgrees(s, ta, tb, c, EffectiveBps(d, c.item.amountPaise), at, w);
    var offer := OfferFor(s, at, ta, x);
    assert offer == OfferFor(s, at, tb, x);
    IssueAgrees(s.world, ta, tb, c, offer.bps, at, w);
  }

  ghost function DowngradedFor(s: Setup, t: Tables, c: Candidate): int {
    DowngradeToFit(c.requestedCeilingPaise, MerchantRemaining(s.world, t, c.windowId),
                   CustomerRemaining(s.world, t, c.customerId, c.windowId))
  }

  lemma {:induction false} AttemptAllAgrees(s: Setup, at: Instant, k: Contest, b: Tables, ranked: seq<Scored>,
                                            w: Window)
    requires AgreeFrom(s.world, k.tables, b, w) && ScoredAt(ranked, w)
    ensures var ra, rb := AttemptAll(s, at, k, ranked), AttemptAll(s, at, k.(tables := b), ranked);
            AgreeFrom(s.world, ra.tables, rb.tables, w) && rb == ra.(tables := rb.tables)
    decreases |ranked|
  {
    if ranked != [] {
      AttemptOneAgrees(s, at, k, b, ranked[0], w);
      AttemptAllAgrees(s, at, AttemptOne(s, at, k, ranked[0]), AttemptOne(s, at, k.(tables := b), ranked[0]).tables,
                       ranked[1..], w);
    }
  }

  lemma {:induction false} LosersAgree(world: World, ka: Contest, kb: Contest, a: Tables, b: Tables,
                                       outcomes: seq<Outcome>, ranked: seq<Scored>, w: Window)
    requires AgreeFrom(world, a, b, w) && kb == ka.(tables := kb.tables)
    ensures var ra, rb := Losers(ka, a, outcomes, ranked), Losers(kb, b, outcomes, ranked);
            ra.0 == rb.0 && AgreeFrom(world, ra.1, rb.1, w)
    decreases |ranked|
  {
    if ranked != [] {
      if IsWinner(ka, ranked[0].1) {
        LosersAgree(world, ka, kb, a, b, outcomes, ranked[1..], w);
      } else {
        var a1, b1 := AfterDeferral(a, ranked[0].1), AfterDeferral(b, ranked[0].1);
        SamePoolsSameRemaining(world, a, a1);
        SamePoolsSameRemaining(world, b, b1);
        LosersAgree(world, ka, kb, a1, b1, outcomes + [LossOf(ka, ranked[0])], ranked[1..], w);
      }
    }
  }

  lemma RoundAgrees(s: Setup, at: Instant, a: Tables, b: Tables, outcomes: seq<Outcome>, cands: seq<Candidate>,
                    w: Window)
    requires AgreeFrom(s.world, a, b, w) && AllInWindow(cands, w) && AllShaped(outcomes, w)
    ensures var ra, rb := CustomerRound(s, at, a, outcomes, cands), CustomerRound(s, at, b, outcomes, cands);
            ra.0 == rb.0 && AgreeFrom(s.world, ra.1, rb.1, w)
  {
    var aa, ab := AdmitAll(s, at, Admission(a, outcomes, []), cands),
        AdmitAll(s, at, Admission(b, outcomes, []), cands);
    AdmitAllAgrees(s, at, Admission(a, outcomes, []), b, cands, w);
    AdmitAllShapes(s, at, Admission(a, outcomes, []), cands, w);
    if aa.admitted != [] {
      var ranked := Sort(aa.admitted, RankOrder(s));
      SameMembers(aa.admitted, ranked);
      AttemptAllAgrees(s, at, Contest(aa.tables, None, map[]), ab.tables, ranked, w);
      var ka, kb := AttemptAll(s, at, Contest(aa.tables, None, map[]), ranked),
          AttemptAll(s, at, Contest(ab.tables, None, map[]), ranked);
      LosersAgree(s.world, ka, kb, ka.tables, kb.tables,
                  aa.outcomes + (if ka.winner.Some? then [GrantOf(ka.winner.value)] else []), ranked, w);
    }
  }

  lemma {:induction false} AllocateForAgrees(
    s: Setup, at: Instant, a: Tables, b: Tables, outcomes: seq<Outcome>, cands: seq<Candidate>,
    customers: seq<CustomerId>, w: Window)
    requires AgreeFrom(s.world, a, b, w) && AllInWindow(cands, w) && AllShaped(outcomes, w)
    ensures var ra, rb := AllocateFor(s, at, a, outcomes, cands, customers), AllocateFor(s, at, b, outcomes, cands,
          customers);
            ra.0 == rb.0 && AgreeFrom(s.world, ra.1, rb.1, w)
    decreases |customers|
  {
    if customers != [] {
      var own := CandidatesOf(cands, customers[0]);
      CandidatesOfFacts(cands, customers[0]);
      RoundAgrees(s, at, a, b, outcomes, own, w);
      RoundShapes(s, at, a, outcomes, own, w);
      var ra, rb := CustomerRound(s, at, a, outcomes, own), CustomerRound(s, at, b, outcomes, own);
      AllocateForAgrees(s, at, ra.1, rb.1, ra.0, cands, customers[1..], w);
    }
  }

  // ---- The hard filter ----

  lemma FilterOneAgrees(world: World, optOuts: OptOuts, at: Instant, f: Filtered, b: Tables, c: Candidate, w: Window)
    requires AgreeFrom(world, f.tables, b, w)
    ensures var ra, rb := FilterOne(world, optOuts, at, f, c), FilterOne(world, optOuts, at, f.(tables := b), c);
            AgreeFrom(world, ra.tables, rb.tables, w) && rb == ra.(tables := rb.tables)
  {
    assert EvaluateAll(world, optOuts, f.tables, c, at) == EvaluateAll(world, optOuts, b, c, at);
    SamePoolsSameRemaining(world, f.tables, FilterOne(world, optOuts, at, f, c).tables);
    SamePoolsSameRemaining(world, b, FilterOne(world, optOuts, at, f.(tables := b), c).tables);
  }

  lemma {:induction false} FilterAllAgrees(world: World, optOuts: OptOuts, at: Instant, f: Filtered, b: Tables,
                                           cands: seq<Candidate>, w: Window)
    requires AgreeFrom(world, f.tables, b, w)
    ensures var ra, rb := FilterAll(world, optOuts, at, f, cands), FilterAll(world, optOuts, at, f.(tables := b),
          cands);
            AgreeFrom(world, ra.tables, rb.tables, w) && rb == ra.(tables := rb.tables)
    decreases |cands|
  {
    if cands != [] {
      FilterOneAgrees(world, optOuts, at, f, b, cands[0], w);
      FilterAllAgrees(world, optOuts, at, FilterOne(world, optOuts, at, f, cands[0]),
                      FilterOne(world, optOuts, at, f.(tables := b), cands[0]).tables, cands[1..], w);
    }
  }

  lemma MediationAgrees(s: Setup, optOuts: OptOuts, at: Instant, a: Tables, b: Tables, cands: seq<Candidate>, w: Window)
    requires AgreeFrom(s.world, a, b, w) && AllInWindow(cands, w)
    ensures var ra, rb := FilterAndAllocate(s, optOuts, at, a, cands), FilterAndAllocate(s, optOuts, at, b, cands);
            ra.0 == rb.0 && AgreeFrom(s.world, ra.1, rb.1, w)
  {
    InOrderMembers(cands, Customers(cands));
    FilterAllShapes(s.world, optOuts, at, Filtered(a, [], []), InOrder(cands, Customers(cands)), w);
    FilterAllAgrees(s.world, optOuts, at, Filtered(a, [], []), b, InOrder(cands, Customers(cands)), w);
    var fa, fb := FilterCandidates(s.world, optOuts, at, a, cands), FilterCandidates(s.world, optOuts, at, b, cands);
    AllocateForAgrees(s, at, fa.tables, fb.tables, [], fa.survivors, Customers(fa.survivors), w);
  }

  // ---- The run ----

  /** Same contacts in the same order on the same terms; whether they recovered, and what that cost, may differ. */
  ghost predicate SameContact(a: Contact, b: Contact) {
    a.(recovered := b.recovered, amountRecoveredPaise := b.amountRecoveredPaise, incentivePaise := b.incentivePaise)
      == b
  }

  ghost predicate SameContacts(a: seq<Contact>, b: seq<Contact>) {
    |a| == |b| && forall i :: 0 <= i < |a| ==> SameContact(a[i], b[i])
  }

  /** Runs that have decided everything alike so far, as far as windows from `w` on can tell. */
  ghost predicate Indistinguishable(world: World, a: Run, b: Run, w: Window) {
    && AgreeFrom(world, a.tables, b.tables, w)
    && a.carried == b.carried && a.decisions == b.decisions && SameContacts(a.contacts, b.contacts)
  }

  ghost predicate GrantsBefore(t: Tables, w: Window) {
    forall i :: 0 <= i < |t.grants| ==> t.grants[i].windowId < w
  }

  lemma ExecuteGrantAgrees(cfg: RunSetup, oa: Oracle, ob: Oracle, a: Run, b: Run, c: Candidate, grant: Grant, bps: int,
                           w: Window)
    requires Indistinguishable(cfg.setup.world, a, b, w) && GrantsBefore(a.tables, w)
    ensures var ra, rb := ExecuteGrant(cfg, oa, a, c, grant, bps), ExecuteGrant(cfg, ob, b, c, grant, bps);
            && (ra.Err? ==> ra == rb)
            && (ra.Ok? ==>
                rb.Ok? && Indistinguishable(cfg.setup.world, ra.value, rb.value, w) && GrantsBefore(ra.value.tables, w)
                           && ra.value.carried == a.carried && ra.value.decisions == a.decisions)
  {
    var world, id, at := cfg.setup.world, grant.grantId, grant.sendAfter;
    TransitionAgrees(world, a.tables, b.tables, id, Execute, Execute, at, w);
    ObservedAgrees(a.contacts, b.contacts, c.request.riskId);
    if Transition(world, a.tables, id, Execute, at).Ok? {
      var ta, tb := Transition(world, a.tables, id, Execute, at).value,
          Transition(world, b.tables, id, Execute, at).value;
      TransitionKeepsWindows(world, a.tables, id, Execute, at, w);
      var ca, cb := Observe(c, grant, bps, oa(|a.contacts|, c, bps)), Observe(c, grant, bps, ob(|b.contacts|, c, bps));
      TransitionAgrees(world, ta, tb, id, Confirm(ca.incentivePaise), Confirm(cb.incentivePaise), at, w);
      if Transition(world, ta, id, Confirm(ca.incentivePaise), at).Ok? {
        TransitionKeepsWindows(world, ta, id, Confirm(ca.incentivePaise), at, w);
      }
    }
  }

  lemma ObservedAgrees(a: seq<Contact>, b: seq<Contact>, risk: RiskId)
    requires SameContacts(a, b)
    ensures Observed(a, risk) <==> Observed(b, risk)
  {
    if Observed(a, risk) {
      var i :| 0 <= i < |a| && a[i].riskId == risk;
      assert SameContact(a[i], b[i]);
    }
    if Observed(b, risk) {
      var i :| 0 <= i < |b| && b[i].riskId == risk;
      assert SameContact(a[i], b[i]);
    }
  }

  lemma TransitionKeepsWindows(world: World, t: Tables, id: GrantId, step: Step, at: Instant, w: Window)
    requires GrantsBefore(t, w) && Transition(world, t, id, step, at).Ok?
    ensures GrantsBefore(Transition(world, t, id, step, at).value, w)
  {
  }

  lemma {:induction false} ExecuteGrantsAgree(cfg: RunSetup, oa: Oracle, ob: Oracle, a: Run, b: Run,
                                              outcomes: seq<Outcome>, w: Window)
    requires Indistinguishable(cfg.setup.world, a, b, w) && GrantsBefore(a.tables, w)
    ensures var ra, rb := ExecuteGrants(cfg, oa, a, outcomes), ExecuteGrants(cfg, ob, b, outcomes);
            && (ra.Err? ==> ra == rb)
            && (ra.Ok? ==>
                rb.Ok? && Indistinguishable(cfg.setup.world, ra.value, rb.value, w) && GrantsBefore(ra.value.tables, w)
                           && ra.value.carried == a.carried && ra.value.decisions == a.decisions)
    decreases |outcomes|
  {
    if outcomes != [] {
      var o := outcomes[0];
      if o.grant.None? || o.effectiveBps.None? {
        ExecuteGrantsAgree(cfg, oa, ob, a, b, outcomes[1..], w);
      } else {
        ExecuteGrantAgrees(cfg, oa, ob, a, b, o.candidate, o.grant.value, o.effectiveBps.value, w);
        var ra, rb := ExecuteGrant(cfg, oa, a, o.candidate, o.grant.value, o.effectiveBps.value),
                      ExecuteGrant(cfg, ob, b, o.candidate, o.grant.value, o.effectiveBps.value);
        if ra.Ok? {
          ExecuteGrantsAgree(cfg, oa, ob, ra.value, rb.value, outcomes[1..], w);
        }
      }
    }
  }

  // ---- Candidates are always presented in their own window ----

  lemma ArrivesInWindow(a: Action)
    ensures var at := AdjustedArrival(a);
            WindowIdFor(at) == ArrivalWindow(a) && LocalHour(at) >= QUIET_HOURS_END_HOUR
  {
    WindowOfStart(WindowIdFor(a.scheduledAt));
  }

  lemma {:induction false} ArrivingMembers(actions: seq<Action>, w: Window)
    ensures forall a :: a in ArrivingIn(actions, w) <==> a in actions && ArrivalWindow(a) == w
    ensures forall a :: multiset(ArrivingIn(actions, w))[a] == if ArrivalWindow(a) == w then multiset(actions)[a] else 0
  {
    if actions != [] {
      ArrivingMembers(actions[1..], w);
      assert actions == [actions[0]] + actions[1..];
    }
  }

  lemma {:induction false} IntakeIsInWindow(cfg: RunSetup, actions: seq<Action>, w: Window)
    requires forall a :: a in actions ==> ArrivalWindow(a) == w
    ensures TakeIn(cfg, actions).Ok? ==> AllInWindow(TakeIn(cfg, actions).value.candidates, w)
  {
    if actions != [] {
      var n := |actions| - 1;
      IntakeIsInWindow(cfg, actions[..n], w);
      ArrivesInWindow(actions[n]);
      assert actions[n] in actions;
    }
  }

  lemma {:induction false} RescheduledIntoNextWindow(outcomes: seq<Outcome>, w: Window)
    requires AllShaped(outcomes, w)
    ensures AllInWindow(RescheduledOf(outcomes), w + 1)
  {
    WindowOfStart(w + 1);
    if outcomes != [] {
      assert Shaped(outcomes[0], w);
      RescheduledIntoNextWindow(outcomes[1..], w);
    }
  }

  lemma WindowIntake(cfg: RunSetup, actions: seq<Action>, w: Window)
    ensures var intake := TakeIn(cfg, NewActions(actions, w));
            intake.Ok? ==> AllInWindow(intake.value.candidates, w)
  {
    ArrivingMembers(actions, w);
    SameMembers(ArrivingIn(actions, w), NewActions(actions, w));
    IntakeIsInWindow(cfg, NewActions(actions, w), w);
  }

  lemma WindowAgrees(cfg: RunSetup, oa: Oracle, ob: Oracle, a: Run, b: Run, w: Window, actions: seq<Action>)
    requires Indistinguishable(cfg.setup.world, a, b, w) && GrantsBefore(a.tables, w) && AllInWindow(a.carried, w)
    ensures var ra, rb := RunWindow(cfg, oa, a, w, actions), RunWindow(cfg, ob, b, w, actions);
            && (ra.Err? ==> ra == rb)
            && (ra.Ok? ==> rb.Ok? && Indistinguishable(cfg.setup.world, ra.value, rb.value, w + 1)
                           && GrantsBefore(ra.value.tables, w + 1) && AllInWindow(ra.value.carried, w + 1))
  {
    WindowIntake(cfg, actions, w);
    if TakeIn(cfg, NewActions(actions, w)).Ok? {
      var intake := TakeIn(cfg, NewActions(actions, w)).value;
      var cands, at := a.carried + intake.candidates, WindowStartFor(w);
      assert AllInWindow(cands, w);
      MediationAgrees(cfg.setup, cfg.optOuts, at, a.tables, b.tables, cands, w);
      MediationShapes(cfg.setup, cfg.optOuts, at, a.tables, cands, w);
      var (outcomes, ma) := MediateWindow(cfg, a, w, intake);
      var mb := MediateWindow(cfg, b, w, intake).1;
      RescheduledIntoNextWindow(outcomes, w);
      assert Indistinguishable(cfg.setup.world, ma, mb, w + 1);
      ExecuteGrantsAgree(cfg, oa, ob, ma, mb, outcomes, w + 1);
    }
  }

  lemma {:induction false} WindowsAgree(cfg: RunSetup, oa: Oracle, ob: Oracle, a: Run, b: Run, w: Window, end: Window,
                                        actions: seq<Action>)
    requires Indistinguishable(cfg.setup.world, a, b, w) && GrantsBefore(a.tables, w) && AllInWindow(a.carried, w)
             && w <= end
    ensures var ra, rb := RunWindows(cfg, oa, a, w, end, actions), RunWindows(cfg, ob, b, w, end, actions);
            && (ra.Err? ==> ra == rb)
            && (ra.Ok? ==> rb.Ok? && Indistinguishable(cfg.setup.world, ra.value, rb.value, end))
    decreases end - w
  {
    if w < end {
      WindowAgrees(cfg, oa, ob, a, b, w, actions);
      var ra, rb := RunWindow(cfg, oa, a, w, actions), RunWindow(cfg, ob, b, w, actions);
      if ra.Ok? {
        WindowsAgree(cfg, oa, ob, ra.value, rb.value, w + 1, end, actions);
      }
    }
  }

  lemma {:induction false} ArrivalBounds(actions: seq<Action>)
    requires actions != []
    ensures forall a :: a in actions ==> FirstWindow(actions) <= ArrivalWindow(a) <= LastArrival(actions)
    ensures FirstWindow(actions) <= LastArrival(actions)
  {
    if |actions| > 1 {
      ArrivalBounds(actions[1..]);
      assert actions == [actions[0]] + actions[1..];
    }
  }

  ghost predicate DecidedAlike(ra: Result<Run, RunError>, rb: Result<Run, RunError>) {
    && (ra.Err? ==> ra == rb)
    && (ra.Ok? ==>
          && rb.Ok?
          && ra.value.decisions == rb.value.decisions
          && ra.value.carried == rb.value.carried
          && ra.value.tables.grants == rb.value.tables.grants
          && ra.value.tables.claims == rb.value.tables.claims
          && ra.value.tables.deniedRiskIds == rb.value.tables.deniedRiskIds
          && SameContacts(ra.value.contacts, rb.value.contacts))
  }

  /**
   * Two runs over the same actions in worlds that respond differently make the same decisions in
   * the same order, issue the same grants, defer the same candidates and make the same contacts;
   * if one fails, the other fails in the same way.
   */
  lemma DecisionsIgnoreOutcomes(cfg: RunSetup, oa: Oracle, ob: Oracle, actions: seq<Action>)
    ensures DecidedAlike(RunLoop(cfg, oa, actions), RunLoop(cfg, ob, actions))
  {
    hide RunWindows;
    if actions != [] {
      ArrivalBounds(actions);
      WindowsAgree(cfg, oa, ob, Initial(), Initial(), FirstWindow(actions), LastWindow(actions) + 1, actions);
    }
  }
}
