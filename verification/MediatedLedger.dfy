/**
 * Mediating a window only ever applies ledger operations, so everything proved of reachable ledgers
 * holds throughout a mediated run.
 */
module MediatedLedger {
  import opened Allocator
  import opened Clock
  import opened Contracts
  import opened HardFilter
  import opened Ledger
  import opened LedgerInvariants
  import opened Sorting
  import opened Wrappers

  ghost predicate Healthy(world: World, t: Tables, settled: Settlements) {
    Coherent(t) && Conserved(world, t, settled) && Solvent(world, t)
  }

  /** The ledger operations mediation consists of. */
  lemma ApplyKeepsHealthy(world: World, t: Tables, settled: Settlements, op: Op)
    requires Healthy(world, t, settled) && !op.Move?
    ensures Healthy(world, Apply(world, t, op), settled)
  {
    ApplyKeepsInvariants(world, t, settled, op);
    ApplyKeepsSolvent(world, t, op);
  }

  lemma {:induction false} AdmitAllKeepsHealthy(s: Setup, at: Instant, a: Admission, cands: seq<Candidate>,
                                                settled: Settlements)
    requires Healthy(s.world, a.tables, settled)
    ensures Healthy(s.world, AdmitAll(s, at, a, cands).tables, settled)
    decreases |cands|
  {
    if cands != [] {
      ApplyKeepsHealthy(s.world, a.tables, settled, Op.Deny(cands[0].item.riskId));
      AdmitAllKeepsHealthy(s, at, AdmitOne(s, at, a, cands[0]), cands[1..], settled);
    }
  }

  lemma AttemptOneKeepsHealthy(s: Setup, at: Instant, k: Contest, x: Scored, settled: Settlements)
    requires Healthy(s.world, k.tables, settled)
    ensures Healthy(s.world, AttemptOne(s, at, k, x).tables, settled)
  {
    var c := x.1;
    var t := Touch(s.world, k.tables, c.customerId, c.windowId);
    ApplyKeepsHealthy(s.world, k.tables, settled, Preview(c.customerId, c.windowId));
    ApplyKeepsHealthy(s.world, t, settled, Issue(c, OfferFor(s, at, t, x).bps, at));
  }

  lemma {:induction false} AttemptAllKeepsHealthy(s: Setup, at: Instant, k: Contest, ranked: seq<Scored>,
                                                  settled: Settlements)
    requires Healthy(s.world, k.tables, settled)
    ensures Healthy(s.world, AttemptAll(s, at, k, ranked).tables, settled)
    decreases |ranked|
  {
    if ranked != [] {
      AttemptOneKeepsHealthy(s, at, k, ranked[0], settled);
      AttemptAllKeepsHealthy(s, at, AttemptOne(s, at, k, ranked[0]), ranked[1..], settled);
    }
  }

  lemma {:induction false} LosersKeepHealthy(world: World, k: Contest, t: Tables, outcomes: seq<Outcome>,
                                             ranked: seq<Scored>, settled: Settlements)
    requires Healthy(world, t, settled)
    ensures Healthy(world, Losers(k, t, outcomes, ranked).1, settled)
    decreases |ranked|
  {
    if ranked != [] {
      if IsWinner(k, ranked[0].1) {
        LosersKeepHealthy(world, k, t, outcomes, ranked[1..], settled);
      } else {
        ApplyKeepsHealthy(world, t, settled, Op.Deny(ranked[0].1.item.riskId));
        LosersKeepHealthy(world, k, AfterDeferral(t, ranked[0].1), outcomes + [LossOf(k, ranked[0])], ranked[1..],
                          settled);
      }
    }
  }

  lemma {:induction false} AllocateForKeepsHealthy(
    s: Setup, at: Instant, t: Tables, outcomes: seq<Outcome>, cands: seq<Candidate>, customers: seq<CustomerId>,
    settled: Settlements)
    requires Healthy(s.world, t, settled)
    ensures Healthy(s.world, AllocateFor(s, at, t, outcomes, cands, customers).1, settled)
    decreases |customers|
  {
    if customers != [] {
      var own := CandidatesOf(cands, customers[0]);
      var a := AdmitAll(s, at, Admission(t, outcomes, []), own);
      AdmitAllKeepsHealthy(s, at, Admission(t, outcomes, []), own, settled);
      if a.admitted != [] {
        var ranked := Sort(a.admitted, RankOrder(s));
        AttemptAllKeepsHealthy(s, at, Contest(a.tables, None, map[]), ranked, settled);
        var k := AttemptAll(s, at, Contest(a.tables, None, map[]), ranked);
        LosersKeepHealthy(s.world, k, k.tables, a.outcomes + (if k.winner.Some? then [GrantOf(k.winner.value)] else []),
                          ranked, settled);
      }
      var r := CustomerRound(s, at, t, outcomes, own);
      AllocateForKeepsHealthy(s, at, r.1, r.0, cands, customers[1..], settled);
    }
  }

  lemma {:induction false} FilterAllKeepsHealthy(world: World, optOuts: OptOuts, at: Instant, f: Filtered,
                                                 cands: seq<Candidate>, settled: Settlements)
    requires Healthy(world, f.tables, settled)
    ensures Healthy(world, FilterAll(world, optOuts, at, f, cands).tables, settled)
    decreases |cands|
  {
    if cands != [] {
      ApplyKeepsHealthy(world, f.tables, settled, Op.Deny(cands[0].item.riskId));
      FilterAllKeepsHealthy(world, optOuts, at, FilterOne(world, optOuts, at, f, cands[0]), cands[1..], settled);
    }
  }

  /** Mediating any candidates keeps every ledger invariant and settles nothing. */
  lemma MediationKeepsHealthy(s: Setup, optOuts: OptOuts, at: Instant, t: Tables, cands: seq<Candidate>,
                              settled: Settlements)
    requires Healthy(s.world, t, settled)
    ensures Healthy(s.world, FilterAndAllocate(s, optOuts, at, t, cands).1, settled)
  {
    FilterAllKeepsHealthy(s.world, optOuts, at, Filtered(t, [], []), InOrder(cands, Customers(cands)), settled);
    var f := FilterCandidates(s.world, optOuts, at, t, cands);
    AllocateForKeepsHealthy(s, at, f.tables, [], f.survivors, Customers(f.survivors), settled);
  }
}
