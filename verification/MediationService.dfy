/**
 * Mediation as the program runs it (sampark/mediation/hard_filter.py, service.py): the hard rules
 * evaluated one after another against the ledger object, the filter's loops, and mediate_window.
 */
module MediationService {
  import opened Allocator
  import opened Clock
  import opened Contracts
  import GreedyAllocator
  import HardFilter
  import opened Ledger
  import opened Registry
  import opened Sorting
  import opened Store
  import opened WindowLoop
  import opened Wrappers

  /** The rules in order of descending permanence; the first to object decides. */
  method EvaluateAll(ledger: InMemoryMediationLedger, optOuts: HardFilter.OptOuts, c: Candidate, decisionAt: Instant)
    returns (verdict: HardFilter.Verdict)
    ensures verdict == HardFilter.EvaluateAll(ledger.world, optOuts, ledger.View(), c, decisionAt)
  {
    if HardFilter.HasOptedOut(optOuts, c) {
      return HardFilter.Deny(OptOutActive);
    }
    if !HardFilter.TemplateRegistered(c.request.intent, c.request.channel) {
      return HardFilter.Deny(DltTemplateUnavailable);
    }
    if c.request.maxIncentiveBps > 0 && HardFilter.DisputeOpen(ledger.world, c.customerId) {
      return HardFilter.Deny(InterlockDisputeOpen);
    }
    var active := ledger.HasActiveClaim(c.customerId, c.windowId);
    if active {
      return HardFilter.Defer(InterlockActiveGrantInWindow, NextWindowStart(c.windowId));
    }
    if IsQuietHours(c.sendAfter) {
      return HardFilter.Defer(QuietHours, NextQuietHoursBoundary(c.sendAfter).value);
    }
    var c24, c7 := ledger.RollingContactCounts(c.customerId, decisionAt);
    if c24 >= CONTACT_CAP_24H {
      return HardFilter.Defer(ContactCap24h, NextWindowStart(c.windowId));
    }
    if c7 >= CONTACT_CAP_7D {
      return HardFilter.Defer(ContactCap7d, NextWindowStart(c.windowId));
    }
    return HardFilter.Admissible;
  }

  /** Filters one customer's candidates, in risk-id order. */
  method FilterCustomer(ledger: InMemoryMediationLedger, optOuts: HardFilter.OptOuts, at: Instant,
                        f: HardFilter.Filtered, cands: seq<Candidate>)
    returns (survivors: seq<Candidate>, outcomes: seq<Outcome>)
    requires f.tables == ledger.View()
    modifies ledger
    ensures HardFilter.Filtered(ledger.View(), survivors, outcomes)
            == HardFilter.FilterAll(ledger.world, optOuts, at, f, cands)
  {
    survivors, outcomes := f.survivors, f.outcomes;
    var i := 0;
    assert cands[0..] == cands;
    while i < |cands|
      invariant 0 <= i <= |cands|
      invariant HardFilter.FilterAll(ledger.world, optOuts, at, HardFilter.Filtered(ledger.View(), survivors, outcomes),
                                     cands[i..])
                == HardFilter.FilterAll(ledger.world, optOuts, at, f, cands)
    {
      var c := cands[i];
      assert cands[i..][0] == c && cands[i..][1..] == cands[i + 1..];
      var verdict := EvaluateAll(ledger, optOuts, c, at);
      match verdict {
        case Admissible => survivors := survivors + [c];
        case Deny(reason) =>
          ledger.MarkTerminallyDenied(c.item.riskId);
          outcomes := outcomes + [DenialOf(c, reason, None)];
        case Defer(reason, next) =>
          if DeferralExhausts(c) {
            ledger.MarkTerminallyDenied(c.item.riskId);
          }
          outcomes := outcomes + [DeferredOrDenied(c, reason, next, None)];
      }
      i := i + 1;
    }
  }

  lemma {:induction false} FilterAllInTwo(world: World, optOuts: HardFilter.OptOuts, at: Instant,
                                          f: HardFilter.Filtered, a: seq<Candidate>, b: seq<Candidate>)
    ensures HardFilter.FilterAll(world, optOuts, at, f, a + b)
            == HardFilter.FilterAll(world, optOuts, at, HardFilter.FilterAll(world, optOuts, at, f, a), b)
    decreases |a|
  {
    if a == [] {
      assert a + b == b;
    } else {
      assert (a + b)[0] == a[0] && (a + b)[1..] == a[1..] + b;
      FilterAllInTwo(world, optOuts, at, HardFilter.FilterOne(world, optOuts, at, f, a[0]), a[1..], b);
    }
  }

  method FilterCandidates(ledger: InMemoryMediationLedger, optOuts: HardFilter.OptOuts, at: Instant,
                          cands: seq<Candidate>)
    returns (survivors: seq<Candidate>, outcomes: seq<Outcome>)
    modifies ledger
    ensures HardFilter.Filtered(ledger.View(), survivors, outcomes)
            == HardFilter.FilterCandidates(ledger.world, optOuts, at, old(ledger.View()), cands)
  {
    var groups := GreedyAllocator.GroupByCustomer(cands);
    var customers := Customers(cands);
    survivors, outcomes := [], [];
    var i := 0;
    assert customers[0..] == customers;
    while i < |customers|
      invariant 0 <= i <= |customers|
      invariant HardFilter.FilterAll(ledger.world, optOuts, at, HardFilter.Filtered(ledger.View(), survivors, outcomes),
                                     HardFilter.InOrder(cands, customers[i..]))
                == HardFilter.FilterCandidates(ledger.world, optOuts, at, old(ledger.View()), cands)
    {
      assert customers[i..][0] == customers[i] && customers[i..][1..] == customers[i + 1..];
      var customer := customers[i];
      assert customer in customers;
      var own := Sort(groups[customer], RiskLe);
      ghost var f := HardFilter.Filtered(ledger.View(), survivors, outcomes);
      FilterAllInTwo(ledger.world, optOuts, at, f, own, HardFilter.InOrder(cands, customers[i + 1..]));
      survivors, outcomes := FilterCustomer(ledger, optOuts, at,
                                            HardFilter.Filtered(ledger.View(), survivors, outcomes), own);
      i := i + 1;
    }
  }

  method FilterAndAllocate(s: Setup, optOuts: HardFilter.OptOuts, ledger: InMemoryMediationLedger, at: Instant,
                           cands: seq<Candidate>)
    returns (outcomes: seq<Outcome>)
    requires s.world == ledger.world
    modifies ledger
    ensures (outcomes, ledger.View()) == HardFilter.FilterAndAllocate(s, optOuts, at, old(ledger.View()), cands)
  {
    var survivors, immediate := FilterCandidates(ledger, optOuts, at, cands);
    var contested := GreedyAllocator.AllocateWindow(s, ledger, at, survivors);
    outcomes := immediate + contested;
  }

  /** Scope-checks the new requests in the order they are presented. */
  method TakeIn(cfg: RunSetup, actions: seq<Action>) returns (intake: Result<Intake, RunError>)
    ensures intake == WindowLoop.TakeIn(cfg, actions)
  {
    var decisions: seq<Decision>, candidates: seq<Candidate> := [], [];
    var i := 0;
    while i < |actions|
      invariant 0 <= i <= |actions|
      invariant WindowLoop.TakeIn(cfg, actions[..i]) == Ok(Intake(decisions, candidates))
    {
      assert actions[..i + 1][..i] == actions[..i];
      var request := ToGrantRequest(cfg, actions[i]);
      var denial := EvaluateScope(cfg.registry, request);
      if denial.Some? {
        decisions := decisions + [Decision.ScopeDenied(request.requestId, denial.value)];
      } else {
        var record := cfg.registry.riskItems[request.riskId];
        var built := BuildCandidate(request, record.0, record.1, AdjustedArrival(actions[i]));
        if built.Err? {
          TakeInFails(cfg, actions, i + 1);
          return Err(CandidateRejected(built.error));
        }
        candidates := candidates + [built.value];
      }
      i := i + 1;
    }
    assert actions[..i] == actions;
    return Ok(Intake(decisions, candidates));
  }

  /** An error raised part-way is the error of the whole. */
  lemma {:induction false} TakeInFails(cfg: RunSetup, actions: seq<Action>, n: nat)
    requires n <= |actions| && WindowLoop.TakeIn(cfg, actions[..n]).Err?
    ensures WindowLoop.TakeIn(cfg, actions) == WindowLoop.TakeIn(cfg, actions[..n])
    decreases |actions|
  {
    if n == |actions| {
      assert actions[..n] == actions;
    } else {
      var m := |actions| - 1;
      assert actions[..m][..n] == actions[..n];
      TakeInFails(cfg, actions[..m], n);
    }
  }

  /** The decisions and the candidates to carry forward. */
  method Conclude(outcomes: seq<Outcome>) returns (decisions: seq<Decision>, rescheduled: seq<Candidate>)
    ensures decisions == DecisionsOf(outcomes) && rescheduled == RescheduledOf(outcomes)
  {
    decisions, rescheduled := [], [];
    var i := 0;
    assert outcomes[0..] == outcomes;
    while i < |outcomes|
      invariant 0 <= i <= |outcomes|
      invariant decisions + DecisionsOf(outcomes[i..]) == DecisionsOf(outcomes)
      invariant rescheduled + RescheduledOf(outcomes[i..]) == RescheduledOf(outcomes)
    {
      assert outcomes[i..][0] == outcomes[i] && outcomes[i..][1..] == outcomes[i + 1..];
      decisions := decisions + [Decided(outcomes[i])];
      if outcomes[i].rescheduled.Some? {
        rescheduled := rescheduled + [outcomes[i].rescheduled.value];
      }
      i := i + 1;
    }
  }
}
