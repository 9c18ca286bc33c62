/**
 * The grants one window issues: exactly one record per granted outcome, in outcome order, reserved
 * at the ceiling of the rate actually offered and kept clear of the customer's rolling caps.
 */
module WindowGrants {
  import opened Allocator
  import opened AllocatorProperties
  import opened AllocatorSelection
  import opened Clock
  import opened Contracts
  import opened HardFilter
  import opened Ledger
  import opened LedgerInvariants
  import opened Margin
  import opened Sorting
  import opened WindowEffects
  import opened Wrappers

  ghost function RecordOf(o: Outcome): seq<GrantRecord> {
    if o.kind.Granted? && o.grant.Some?
    then [GrantRecord(o.grant.value, o.candidate.request.requestId, o.candidate.customerId, o.candidate.windowId)]
    else []
  }

  /** The grant records that a list of outcomes stands for. */
  ghost function Records(outcomes: seq<Outcome>): seq<GrantRecord> {
    if outcomes == [] then [] else
      Records(outcomes[..|outcomes| - 1]) + RecordOf(outcomes[|outcomes| - 1])
  }

  lemma RecordsAppend(outcomes: seq<Outcome>, o: Outcome)
    ensures Records(outcomes + [o]) == Records(outcomes) + RecordOf(o)
  {
    assert (outcomes + [o])[..|outcomes|] == outcomes;
  }

  lemma {:induction false} RecordsConcat(a: seq<Outcome>, b: seq<Outcome>)
    ensures Records(a + b) == Records(a) + Records(b)
  {
    if b == [] {
      assert a + b == a;
    } else {
      var n := |b| - 1;
      assert a + b == (a + b[..n]) + [b[n]];
      RecordsAppend(a + b[..n], b[n]);
      RecordsConcat(a, b[..n]);
    }
  }

  ghost predicate Unissued(grants: seq<GrantRecord>, id: RequestId) {
    forall r :: r in grants ==> r.requestId != id
  }

  lemma UnissuedIsNotFound(grants: seq<GrantRecord>, id: RequestId)
    requires Unissued(grants, id)
    ensures FindRequest(grants, id).None?
  {
    forall i | 0 <= i < |grants| ensures grants[i].requestId != id {
      assert grants[i] in grants;
    }
  }

  ghost predicate AllUnissued(grants: seq<GrantRecord>, cands: seq<Candidate>) {
    forall c :: c in cands ==> Unissued(grants, c.request.requestId)
  }

  ghost predicate DistinctRequests(cands: seq<Candidate>) {
    forall a, b :: a in cands && b in cands && a.request.requestId == b.request.requestId ==> a == b
  }

  /** A candidate as BuildCandidate makes it and deferral leaves it. */
  ghost predicate Sound(c: Candidate) {
    ValidCandidate(c) && WellPriced(c)
  }

  ghost predicate AllSound(cands: seq<Candidate>) {
    forall c :: c in cands ==> Sound(c)
  }

  /** A granted outcome: a reservation of the offered rate's own ceiling, never above the requested rate. */
  ghost predicate FairGrant(o: Outcome) {
    o.kind.Granted? ==>
      && o.grant.Some? && o.effectiveBps.Some?
      && 0 <= o.effectiveBps.value <= o.candidate.request.maxIncentiveBps
      && IncentiveCeilingPaise(o.candidate.item.amountPaise, o.effectiveBps.value) >= 0
      && o.grant.value == NewGrant(o.candidate,
                                   IncentiveCeilingPaise(o.candidate.item.amountPaise, o.effectiveBps.value))
  }

  ghost predicate AllFair(outcomes: seq<Outcome>) {
    forall o :: o in outcomes ==> FairGrant(o)
  }

  /** The j-th grant was issued at `at` with the customer's rolling counts below both caps. */
  ghost predicate ClearOfCaps(grants: seq<GrantRecord>, j: nat, at: Instant)
    requires j < |grants|
  {
    && CountSince(grants[..j], grants[j].customerId, at - DAY) < CONTACT_CAP_24H
    && CountSince(grants[..j], grants[j].customerId, at - 7 * DAY) < CONTACT_CAP_7D
  }

  ghost predicate AllClearFrom(grants: seq<GrantRecord>, start: nat, at: Instant) {
    forall j :: start <= j < |grants| ==> ClearOfCaps(grants, j, at)
  }

  /** The window's ledger so far: the grants it began with and one record per granted outcome. */
  ghost predicate Tally(was: seq<GrantRecord>, grants: seq<GrantRecord>, outcomes: seq<Outcome>, at: Instant) {
    grants == was + Records(outcomes) && AllFair(outcomes) && AllClearFrom(grants, |was|, at)
  }

  lemma TallyGrantless(was: seq<GrantRecord>, grants: seq<GrantRecord>, outcomes: seq<Outcome>, o: Outcome, at: Instant)
    requires Tally(was, grants, outcomes, at) && !o.kind.Granted?
    ensures Tally(was, grants, outcomes + [o], at)
  {
    RecordsAppend(outcomes, o);
  }

  lemma TallyGrant(was: seq<GrantRecord>, grants: seq<GrantRecord>, outcomes: seq<Outcome>, o: Outcome, at: Instant)
    requires Tally(was, grants, outcomes, at) && o.kind.Granted? && FairGrant(o)
    requires CountSince(grants, o.candidate.customerId, at - DAY) < CONTACT_CAP_24H
    requires CountSince(grants, o.candidate.customerId, at - 7 * DAY) < CONTACT_CAP_7D
    ensures Tally(was, grants + RecordOf(o), outcomes + [o], at)
  {
    RecordsAppend(outcomes, o);
    var grants' := grants + RecordOf(o);
    forall j | |was| <= j < |grants'| ensures ClearOfCaps(grants', j, at) {
      assert grants'[..j] == grants[..j];
      assert j == |grants| ==> grants[..j] == grants;
      assert j < |grants| ==> ClearOfCaps(grants, j, at);
    }
  }

  // ---- The contest ----

  lemma OfferIsFair(s: Setup, at: Instant, t: Tables, t': Tables, x: Scored)
    requires Sound(x.1) && MerchantRemaining(s.world, t', x.1.windowId)
             == MerchantRemaining(s.world, t, x.1.windowId) > 0
    requires CustomerRemaining(s.world, t', x.1.customerId, x.1.windowId)
             == CustomerRemaining(s.world, t, x.1.customerId, x.1.windowId) > 0
    ensures var bps := OfferFor(s, at, t, x).bps;
            && 0 <= bps <= x.1.request.maxIncentiveBps
            && IncentiveCeilingPaise(x.1.item.amountPaise, bps) >= 0
            && CeilingFor(s.world, t', x.1, bps) == IncentiveCeilingPaise(x.1.item.amountPaise, bps)
  {
    var c := x.1;
    var m, o := MerchantRemaining(s.world, t, c.windowId), CustomerRemaining(s.world, t, c.customerId, c.windowId);
    var d := DowngradeToFit(c.requestedCeilingPaise, m, o);
    CeilingMonotone(c.item.amountPaise, 0, c.request.maxIncentiveBps);
    DowngradeFits(c.requestedCeilingPaise, m, o);
    if d < c.requestedCeilingPaise {
      EffectiveBpsIsSound(c.item.amountPaise, c.request.maxIncentiveBps, d);
      DowngradeFits(IncentiveCeilingPaise(c.item.amountPaise, EffectiveBps(d, c.item.amountPaise)), m, o);
    }
  }

  ghost predicate WonWell(s: Setup, at: Instant, before: seq<GrantRecord>, w: Winner, after: seq<GrantRecord>) {
    && FairGrant(GrantOf(w))
    && after == before + RecordOf(GrantOf(w))
    && CountSince(before, w.candidate.customerId, at - DAY) < CONTACT_CAP_24H
    && CountSince(before, w.candidate.customerId, at - 7 * DAY) < CONTACT_CAP_7D
  }

  lemma AttemptOneGrants(s: Setup, at: Instant, k: Contest, x: Scored)
    requires k.winner.None? && Sound(x.1) && Unissued(k.tables.grants, x.1.request.requestId)
    ensures var r := AttemptOne(s, at, k, x);
            if r.winner.Some?
            then r.winner.value.candidate == x.1 && WonWell(s, at, k.tables.grants, r.winner.value, r.tables.grants)
            else r.tables.grants == k.tables.grants
  {
    var c := x.1;
    var t := Touch(s.world, k.tables, c.customerId, c.windowId);
    var t1 := Touch(s.world, Remember(t, c.request), c.customerId, c.windowId);
    TouchKeepsPools(s.world, k.tables, c.customerId, c.windowId);
    TouchKeepsPools(s.world, Remember(t, c.request), c.customerId, c.windowId);
    SamePoolsSameRemaining(s.world, t, Remember(t, c.request));
    UnissuedIsNotFound(k.tables.grants, c.request.requestId);
    if Refusal(s.world, t1, c.customerId, c.windowId, at).None? {
      OfferIsFair(s, at, t, t1, x);
    }
  }

  lemma {:induction false} AttemptAllGrants(s: Setup, at: Instant, k: Contest, ranked: seq<Scored>)
    requires k.winner.None?
    requires forall x :: x in ranked ==> Sound(x.1) && Unissued(k.tables.grants, x.1.request.requestId)
    ensures var r := AttemptAll(s, at, k, ranked);
            if r.winner.Some?
            then (exists x :: x in ranked && x.1 == r.winner.value.candidate)
                 && WonWell(s, at, k.tables.grants, r.winner.value, r.tables.grants)
            else r.tables.grants == k.tables.grants
    decreases |ranked|
  {
    if ranked != [] {
      var x := ranked[0];
      assert x in ranked;
      AttemptOneGrants(s, at, k, x);
      var k' := AttemptOne(s, at, k, x);
      if k'.winner.Some? {
        AttemptsStopAtWinner(s, at, k', ranked[1..]);
      } else {
        AttemptAllGrants(s, at, k', ranked[1..]);
      }
    }
  }

  // ---- A customer's round ----

  lemma {:induction false} AdmitAllTallies(s: Setup, at: Instant, a: Admission, cands: seq<Candidate>,
                                           was: seq<GrantRecord>)
    requires Tally(was, a.tables.grants, a.outcomes, at)
    ensures var r := AdmitAll(s, at, a, cands);
            && Tally(was, r.tables.grants, r.outcomes, at) && r.tables.grants == a.tables.grants
            && (forall x :: x in r.admitted ==> x in a.admitted || x.1 in cands)
    decreases |cands|
  {
    if cands != [] {
      var c := cands[0];
      TallyGrantless(was, a.tables.grants, a.outcomes,
                     DenialOf(c, NegativeExpectedNet, Some(ScoreNow(s, a.tables, c, c.request.maxIncentiveBps, at))),
                     at);
      AdmitAllTallies(s, at, AdmitOne(s, at, a, c), cands[1..], was);
    }
  }

  lemma {:induction false} LosersTally(k: Contest, t: Tables, outcomes: seq<Outcome>, ranked: seq<Scored>,
                                       was: seq<GrantRecord>, at: Instant)
    requires Tally(was, t.grants, outcomes, at)
    ensures var (r, t') := Losers(k, t, outcomes, ranked);
            Tally(was, t'.grants, r, at) && t'.grants == t.grants
    decreases |ranked|
  {
    if ranked != [] {
      if IsWinner(k, ranked[0].1) {
        LosersTally(k, t, outcomes, ranked[1..], was, at);
      } else {
        TallyGrantless(was, t.grants, outcomes, LossOf(k, ranked[0]), at);
        LosersTally(k, AfterDeferral(t, ranked[0].1), outcomes + [LossOf(k, ranked[0])], ranked[1..], was, at);
      }
    }
  }

  /** A round keeps the tally, and whatever it issued belongs to one of its own candidates. */
  lemma RoundTallies(s: Setup, at: Instant, t: Tables, outcomes: seq<Outcome>, cands: seq<Candidate>,
                     was: seq<GrantRecord>)
    requires Tally(was, t.grants, outcomes, at) && AllSound(cands) && AllUnissued(t.grants, cands)
    ensures var (r, t') := CustomerRound(s, at, t, outcomes, cands);
            && Tally(was, t'.grants, r, at)
            && (forall g :: g in t'.grants ==>
                  g in t.grants || exists c :: c in cands && c.request.requestId == g.requestId)
  {
    AdmitAllTallies(s, at, Admission(t, outcomes, []), cands, was);
    var a := AdmitAll(s, at, Admission(t, outcomes, []), cands);
    if a.admitted != [] {
      SettleTallies(s, at, a, cands, was);
    }
  }

  lemma SettleTallies(s: Setup, at: Instant, a: Admission, cands: seq<Candidate>, was: seq<GrantRecord>)
    requires Tally(was, a.tables.grants, a.outcomes, at) && AllSound(cands) && AllUnissued(a.tables.grants, cands)
    requires forall x :: x in a.admitted ==> x.1 in cands
    ensures var (r, t') := Settle(s, at, a);
            && Tally(was, t'.grants, r, at)
            && (forall g :: g in t'.grants ==>
                  g in a.tables.grants || exists c :: c in cands && c.request.requestId == g.requestId)
  {
    var ranked := Sort(a.admitted, RankOrder(s));
    SameMembers(a.admitted, ranked);
    AttemptAllGrants(s, at, Contest(a.tables, None, map[]), ranked);
    var k := AttemptAll(s, at, Contest(a.tables, None, map[]), ranked);
    if k.winner.Some? {
      var won := GrantOf(k.winner.value);
      TallyGrant(was, a.tables.grants, a.outcomes, won, at);
      LosersTally(k, k.tables, a.outcomes + [won], ranked, was, at);
      assert RecordOf(won)[0].requestId == won.candidate.request.requestId;
      assert won.candidate in cands;
    } else {
      assert a.outcomes + [] == a.outcomes;
      LosersTally(k, k.tables, a.outcomes, ranked, was, at);
    }
  }

  // ---- The whole window ----

  lemma {:induction false} AllocateForTallies(
    s: Setup, at: Instant, t: Tables, outcomes: seq<Outcome>, cands: seq<Candidate>, customers: seq<CustomerId>,
    was: seq<GrantRecord>)
    requires Tally(was, t.grants, outcomes, at) && AllSound(cands) && DistinctRequests(cands)
             && StrictlyIncreasing(customers)
    requires forall c :: c in cands && c.customerId in customers ==> Unissued(t.grants, c.request.requestId)
    ensures var (r, t') := AllocateFor(s, at, t, outcomes, cands, customers);
            Tally(was, t'.grants, r, at)
    decreases |customers|
  {
    if customers != [] {
      var own := CandidatesOf(cands, customers[0]);
      CandidatesOfFacts(cands, customers[0]);
      RoundTallies(s, at, t, outcomes, own, was);
      var (r, t') := CustomerRound(s, at, t, outcomes, own);
      forall c | c in cands && c.customerId in customers[1..] ensures Unissued(t'.grants, c.request.requestId) {
        assert c.customerId != customers[0];
      }
      AllocateForTallies(s, at, t', r, cands, customers[1..], was);
    }
  }

  lemma FilterOneTallies(world: World, optOuts: OptOuts, at: Instant, f: Filtered, c: Candidate, was: seq<GrantRecord>)
    requires Tally(was, f.tables.grants, f.outcomes, at)
    ensures var r := FilterOne(world, optOuts, at, f, c);
            && Tally(was, r.tables.grants, r.outcomes, at) && r.tables.grants == f.tables.grants
            && (forall d :: d in r.survivors ==> d in f.survivors || d == c)
  {
    var verdict := EvaluateAll(world, optOuts, f.tables, c, at);
    if verdict.Deny? {
      TallyGrantless(was, f.tables.grants, f.outcomes, DenialOf(c, verdict.reason, None), at);
    } else if verdict.Defer? {
      TallyGrantless(was, f.tables.grants, f.outcomes,
                     DeferredOrDenied(c, verdict.reason, verdict.nextEligibleAt, None), at);
    }
  }

  lemma {:induction false} FilterAllTallies(world: World, optOuts: OptOuts, at: Instant, f: Filtered,
                                            cands: seq<Candidate>, was: seq<GrantRecord>)
    requires Tally(was, f.tables.grants, f.outcomes, at)
    ensures var r := FilterAll(world, optOuts, at, f, cands);
            && Tally(was, r.tables.grants, r.outcomes, at) && r.tables.grants == f.tables.grants
            && (forall c :: c in r.survivors ==> c in f.survivors || c in cands)
    decreases |cands|
  {
    if cands != [] {
      var c := cands[0];
      FilterOneTallies(world, optOuts, at, f, c, was);
      FilterAllTallies(world, optOuts, at, FilterOne(world, optOuts, at, f, c), cands[1..], was);
      assert c in cands && forall d :: d in cands[1..] ==> d in cands;
    }
  }

  lemma TallyAfterGrantless(was: seq<GrantRecord>, grants: seq<GrantRecord>, earlier: seq<Outcome>,
                            outcomes: seq<Outcome>, at: Instant)
    requires Tally(was, was, earlier, at) && Tally(was, grants, outcomes, at)
    ensures Tally(was, grants, earlier + outcomes, at)
  {
    RecordsConcat(earlier, outcomes);
    assert Records(earlier) == [];
  }

  lemma FilterTallies(s: Setup, optOuts: OptOuts, at: Instant, t: Tables, cands: seq<Candidate>)
    ensures var f := FilterCandidates(s.world, optOuts, at, t, cands);
            Tally(t.grants, t.grants, f.outcomes, at) && f.tables.grants == t.grants
              && forall c :: c in f.survivors ==> c in cands
  {
    var order := InOrder(cands, Customers(cands));
    InOrderMembers(cands, Customers(cands));
    FilterAllTallies(s.world, optOuts, at, Filtered(t, [], []), order, t.grants);
  }

  /** Mediating a window adds exactly the grants its outcomes report, each fair and clear of the caps. */
  lemma MediationTallies(s: Setup, optOuts: OptOuts, at: Instant, t: Tables, cands: seq<Candidate>)
    requires AllSound(cands) && DistinctRequests(cands) && AllUnissued(t.grants, cands)
    ensures var (outcomes, t') := FilterAndAllocate(s, optOuts, at, t, cands);
            Tally(t.grants, t'.grants, outcomes, at)
  {
    FilterTallies(s, optOuts, at, t, cands);
    var f := FilterCandidates(s.world, optOuts, at, t, cands);
    CustomersFacts(f.survivors);
    AllocateForTallies(s, at, f.tables, [], f.survivors, Customers(f.survivors), t.grants);
    TallyAfterGrantless(t.grants, AllocateWindow(s, at, f.tables, f.survivors).1.grants, f.outcomes,
                        AllocateWindow(s, at, f.tables, f.survivors).0, at);
  }
}
