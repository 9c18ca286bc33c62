/**
 * Why every candidate of a window ends as it does (sampark/allocator/outcomes.py, greedy.py,
 * sampark/mediation/hard_filter.py): what is denied for good, what waits for the next window and for
 * how long, and what the ledger remembers as denied.
 */
module Reasons {
  import opened Allocator
  import opened Clock
  import opened Contracts
  import opened HardFilter
  import opened Ledger
  import opened Sorting
  import opened WindowLoop
  import opened Wrappers

  // ---- The reasons ----

  /** Reasons that never go away. */
  predicate Permanent(reason: ReasonCode) {
    reason in {OptOutActive, DltTemplateUnavailable, InterlockDisputeOpen}
  }

  /** What a hard rule may ask a candidate to wait for. */
  predicate RuleMayPass(reason: ReasonCode) {
    reason in {InterlockActiveGrantInWindow, QuietHours, ContactCap24h, ContactCap7d}
  }

  /** What a candidate that was scored and admitted may be told. */
  predicate LossMayPass(reason: ReasonCode) {
    reason in {MerchantMarginExhausted, CustomerMarginExhausted, ContactCap24h, ContactCap7d, ContactSlotTaken,
               LostToHigherExpectedNet}
  }

  predicate MayPass(reason: ReasonCode, score: Option<real>) {
    if score.None? then RuleMayPass(reason) else LossMayPass(reason)
  }

  /**
   * An outcome as the program promises it.  Only a permanent rule, a score that is not positive and a
   * seventh window without success deny; whatever else stands in the way defers, by one window.
   */
  ghost predicate Reasoned(s: Setup, o: Outcome) {
    var c := o.candidate;
    match o.kind
    case Granted => o.reason.None? && o.rescheduled.None?
    case Denied =>
      && o.reason.Some? && o.rescheduled.None? && o.grant.None?
      && (|| (Permanent(o.reason.value) && o.score.None?)
          || (o.reason.value.NegativeExpectedNet? && !s.fifoMode && o.score.Some? && o.score.value <= 0.0)
          || (o.reason.value.DeferralExhausted? && c.windowsDeferred + 1 >= 7))
    case Deferred =>
      && c.windowsDeferred + 1 < 7
      && o.reason.Some? && MayPass(o.reason.value, o.score) && o.nextEligibleAt.Some? && o.grant.None?
      && o.rescheduled == Some(c.(windowsDeferred := c.windowsDeferred + 1,
                                  windowId := WindowIdFor(o.nextEligibleAt.value), sendAfter := o.nextEligibleAt.value))
  }

  ghost predicate AllReasoned(s: Setup, outcomes: seq<Outcome>) {
    forall o :: o in outcomes ==> Reasoned(s, o)
  }

  /** The items these outcomes deny. */
  ghost function DeniedBy(outcomes: seq<Outcome>): set<RiskId> {
    set o | o in outcomes && o.kind.Denied? :: o.candidate.item.riskId
  }

  lemma DeniedByOneMore(outcomes: seq<Outcome>, o: Outcome)
    ensures DeniedBy(outcomes + [o]) == DeniedBy(outcomes) + (if o.kind.Denied? then {o.candidate.item.riskId} else {})
  {
    forall x | x in outcomes ensures x in outcomes + [o] {}
    assert o in outcomes + [o];
  }

  /** The outcomes so far are reasoned, and the ledger has denied exactly what they deny. */
  ghost predicate Accounted(s: Setup, was: set<RiskId>, t: Tables, outcomes: seq<Outcome>) {
    AllReasoned(s, outcomes) && t.deniedRiskIds == was + DeniedBy(outcomes)
  }

  lemma OneMoreAccounted(s: Setup, was: set<RiskId>, t: Tables, t': Tables, outcomes: seq<Outcome>, o: Outcome)
    requires Accounted(s, was, t, outcomes) && Reasoned(s, o)
    requires t'.deniedRiskIds == t.deniedRiskIds + (if o.kind.Denied? then {o.candidate.item.riskId} else {})
    ensures Accounted(s, was, t', outcomes + [o])
  {
    DeniedByOneMore(outcomes, o);
    hide Reasoned, DeniedBy;
  }

  /**
   * What waiting means: short of the seventh window the candidate is deferred and nothing is denied;
   * at the seventh it is denied for good.
   */
  lemma WaitingIsReasoned(s: Setup, t: Tables, c: Candidate, reason: ReasonCode, next: Instant, score: Option<real>)
    requires MayPass(reason, score)
    ensures var o, t' := DeferredOrDenied(c, reason, next, score), AfterDeferral(t, c);
            && o.candidate == c && o.score == score && Reasoned(s, o)
            && (o.kind.Deferred? <==> c.windowsDeferred + 1 < 7)
            && (o.kind.Deferred? ==> t' == t && o.reason == Some(reason) && o.nextEligibleAt == Some(next))
            && (!o.kind.Deferred? ==> o.kind.Denied? && o.reason == Some(DeferralExhausted))
            && t'.deniedRiskIds == t.deniedRiskIds + (if o.kind.Denied? then {c.item.riskId} else {})
  {
  }

  // ---- The hard filter ----

  lemma VerdictIsReasoned(world: World, optOuts: OptOuts, t: Tables, c: Candidate, at: Instant)
    ensures var v := EvaluateAll(world, optOuts, t, c, at);
            (v.Deny? ==> Permanent(v.reason)) && (v.Defer? ==> RuleMayPass(v.reason))
  {
  }

  /**
   * Each candidate as it is judged on the ledger of that moment: it survives untouched, is denied for
   * itself and for every later score, or waits; and always for the reason the rules gave.
   */
  lemma FilteredAsJudged(s: Setup, optOuts: OptOuts, at: Instant, f: Filtered, c: Candidate)
    ensures var r, v := FilterOne(s.world, optOuts, at, f, c), EvaluateAll(s.world, optOuts, f.tables, c, at);
            if v.Admissible? then r == f.(survivors := f.survivors + [c])
            else
              && r.survivors == f.survivors && |r.outcomes| == |f.outcomes| + 1 && f.outcomes <= r.outcomes
              && var o := r.outcomes[|f.outcomes|];
                 && o.candidate == c && o.score.None? && Reasoned(s, o)
                 && (v.Deny? ==> o.kind.Denied? && o.reason == Some(v.reason))
                 && (v.Defer? ==> (o.kind.Deferred? <==> c.windowsDeferred + 1 < 7)
                                  && (o.kind.Deferred? ==> o.reason == Some(v.reason)
                                                           && o.nextEligibleAt == Some(v.nextEligibleAt)))
                 && r.tables == f.tables.(deniedRiskIds :=
                      f.tables.deniedRiskIds + (if o.kind.Denied? then {c.item.riskId} else {}))
  {
    VerdictIsReasoned(s.world, optOuts, f.tables, c, at);
    hide EvaluateAll;
  }

  lemma {:induction false} FilterAccounts(s: Setup, optOuts: OptOuts, at: Instant, f: Filtered, cands: seq<Candidate>,
                                          was: set<RiskId>)
    requires Accounted(s, was, f.tables, f.outcomes)
    ensures var r := FilterAll(s.world, optOuts, at, f, cands); Accounted(s, was, r.tables, r.outcomes)
    decreases |cands|
  {
    if cands != [] {
      var c := cands[0];
      VerdictIsReasoned(s.world, optOuts, f.tables, c, at);
      var v := EvaluateAll(s.world, optOuts, f.tables, c, at);
      if v.Deny? {
        OneMoreAccounted(s, was, f.tables, MarkDenied(f.tables, c.item.riskId), f.outcomes,
                         DenialOf(c, v.reason, None));
      } else if v.Defer? {
        WaitingIsReasoned(s, f.tables, c, v.reason, v.nextEligibleAt, None);
        OneMoreAccounted(s, was, f.tables, AfterDeferral(f.tables, c), f.outcomes,
                         DeferredOrDenied(c, v.reason, v.nextEligibleAt, None));
      }
      hide EvaluateAll, Accounted;
      FilterAccounts(s, optOuts, at, FilterOne(s.world, optOuts, at, f, c), cands[1..], was);
    }
  }

  // ---- The allocator ----

  /**
   * Admission exactly: outside arrival-order mode a candidate whose score is not positive is denied
   * on the spot, for itself and for every later score; anybody else is admitted with that score.
   */
  lemma AdmittedIfWorthIt(s: Setup, at: Instant, a: Admission, c: Candidate)
    ensures var r := AdmitOne(s, at, a, c);
            var score := s.scorer(c, c.request.maxIncentiveBps, ContactsMade(a.tables, c.customerId, at),
                                  OtherOpenAmounts(s.world, a.tables, c.customerId, at, c.item.riskId));
            if s.fifoMode || score > 0.0
            then r.admitted == a.admitted + [(score, c)] && r.outcomes == a.outcomes && r.tables == a.tables
            else && r.admitted == a.admitted && |r.outcomes| == |a.outcomes| + 1 && a.outcomes <= r.outcomes
                 && r.outcomes[|a.outcomes|].candidate == c && r.outcomes[|a.outcomes|].kind.Denied?
                 && r.outcomes[|a.outcomes|].reason == Some(NegativeExpectedNet)
                 && r.outcomes[|a.outcomes|].score == Some(score)
                 && r.tables == a.tables.(deniedRiskIds := a.tables.deniedRiskIds + {c.item.riskId})
  {
  }

  lemma {:induction false} AdmissionAccounts(s: Setup, at: Instant, a: Admission, cands: seq<Candidate>,
                                             was: set<RiskId>)
    requires Accounted(s, was, a.tables, a.outcomes)
    ensures var r := AdmitAll(s, at, a, cands); Accounted(s, was, r.tables, r.outcomes)
    decreases |cands|
  {
    if cands != [] {
      var a' := AdmitOne(s, at, a, cands[0]);
      AdmittedIfWorthIt(s, at, a, cands[0]);
      if a'.outcomes != a.outcomes {
        var o := a'.outcomes[|a.outcomes|];
        assert a'.outcomes == a.outcomes + [o];
        OneMoreAccounted(s, was, a.tables, a'.tables, a.outcomes, o);
      }
      hide AdmitOne, Accounted;
      AdmissionAccounts(s, at, a', cands[1..], was);
    }
  }

  /** A contest that has touched nothing denied, and has told everybody something that may pass. */
  ghost predicate TellsLosses(k: Contest, t: Tables) {
    && k.tables.deniedRiskIds == t.deniedRiskIds
    && forall risk :: risk in k.denials ==> LossMayPass(k.denials[risk].0)
  }

  lemma AttemptTellsLosses(s: Setup, at: Instant, k: Contest, x: Scored, t: Tables)
    requires TellsLosses(k, t)
    ensures TellsLosses(AttemptOne(s, at, k, x), t)
  {
    hide OfferFor, MerchantRemaining, CustomerRemaining, CeilingFor, MerchantPool, CustomerPool;
  }

  lemma {:induction false} AttemptsTellLosses(s: Setup, at: Instant, k: Contest, ranked: seq<Scored>, t: Tables)
    requires TellsLosses(k, t)
    ensures TellsLosses(AttemptAll(s, at, k, ranked), t)
    decreases |ranked|
  {
    if ranked != [] {
      AttemptTellsLosses(s, at, k, ranked[0], t);
      hide AttemptOne, TellsLosses;
      AttemptsTellLosses(s, at, AttemptOne(s, at, k, ranked[0]), ranked[1..], t);
    }
  }

  /**
   * A loser is told what its own attempt met with, or that another was ranked higher if it never got
   * to make one, with the score it was admitted at; and waits, unless its windows have run out.
   */
  lemma LoserIsTold(s: Setup, k: Contest, t: Tables, x: Scored)
    requires TellsLosses(k, k.tables)
    ensures var o, c := LossOf(k, x), x.1;
            && o.candidate == c && o.score == Some(x.0) && Reasoned(s, o)
            && (c.windowsDeferred + 1 < 7 ==>
                  && o.kind.Deferred?
                  && (c.item.riskId in k.denials ==> o.reason == Some(k.denials[c.item.riskId].0)
                                                     && o.nextEligibleAt == Some(k.denials[c.item.riskId].1))
                  && (c.item.riskId !in k.denials ==> o.reason == Some(LostToHigherExpectedNet)
                                                      && o.nextEligibleAt == Some(WindowStartFor(c.windowId + 1))))
            && (c.windowsDeferred + 1 >= 7 ==> o.kind.Denied? && o.reason == Some(DeferralExhausted))
            && AfterDeferral(t, c).deniedRiskIds
               == t.deniedRiskIds + (if o.kind.Denied? then {c.item.riskId} else {})
  {
    var (reason, next) := if x.1.item.riskId in k.denials then k.denials[x.1.item.riskId]
                          else (LostToHigherExpectedNet, NextWindowStart(x.1.windowId));
    WaitingIsReasoned(s, t, x.1, reason, next, Some(x.0));
    hide Reasoned;
  }

  lemma {:induction false} LosersAccount(s: Setup, k: Contest, t: Tables, outcomes: seq<Outcome>, ranked: seq<Scored>,
                                         was: set<RiskId>)
    requires Accounted(s, was, t, outcomes) && TellsLosses(k, k.tables)
    ensures var (r, t') := Losers(k, t, outcomes, ranked); Accounted(s, was, t', r)
    decreases |ranked|
  {
    if ranked != [] {
      if IsWinner(k, ranked[0].1) {
        LosersAccount(s, k, t, outcomes, ranked[1..], was);
      } else {
        LoserIsTold(s, k, t, ranked[0]);
        hide Reasoned, LossOf, AfterDeferral;
        OneMoreAccounted(s, was, t, AfterDeferral(t, ranked[0].1), outcomes, LossOf(k, ranked[0]));
        LosersAccount(s, k, AfterDeferral(t, ranked[0].1), outcomes + [LossOf(k, ranked[0])], ranked[1..], was);
      }
    }
  }

  lemma SettleAccounts(s: Setup, at: Instant, a: Admission, was: set<RiskId>)
    requires Accounted(s, was, a.tables, a.outcomes)
    ensures var (r, t') := Settle(s, at, a); Accounted(s, was, t', r)
  {
    var ranked := Sort(a.admitted, RankOrder(s));
    var start := Contest(a.tables, None, map[]);
    AttemptsTellLosses(s, at, start, ranked, a.tables);
    var k := AttemptAll(s, at, start, ranked);
    hide AttemptAll, Sort, RankOrder;
    var settled := a.outcomes + (if k.winner.Some? then [GrantOf(k.winner.value)] else []);
    if k.winner.Some? {
      OneMoreAccounted(s, was, a.tables, k.tables, a.outcomes, GrantOf(k.winner.value));
    } else {
      assert settled == a.outcomes;
    }
    LosersAccount(s, k, k.tables, settled, ranked, was);
  }

  lemma {:induction false} AllocateForAccounts(
    s: Setup, at: Instant, t: Tables, outcomes: seq<Outcome>, cands: seq<Candidate>, customers: seq<CustomerId>,
    was: set<RiskId>)
    requires Accounted(s, was, t, outcomes)
    ensures var (r, t') := AllocateFor(s, at, t, outcomes, cands, customers); Accounted(s, was, t', r)
    decreases |customers|
  {
    if customers != [] {
      var own := CandidatesOf(cands, customers[0]);
      AdmissionAccounts(s, at, Admission(t, outcomes, []), own, was);
      var a := AdmitAll(s, at, Admission(t, outcomes, []), own);
      SettleAccounts(s, at, a, was);
      hide AdmitAll, Settle, Accounted;
      var r := CustomerRound(s, at, t, outcomes, own);
      AllocateForAccounts(s, at, r.1, r.0, cands, customers[1..], was);
    }
  }

  // ---- The window ----

  lemma JoinAccounts(s: Setup, was: set<RiskId>, middle: Tables, early: seq<Outcome>, t: Tables, late: seq<Outcome>)
    requires Accounted(s, was, middle, early) && Accounted(s, middle.deniedRiskIds, t, late)
    ensures Accounted(s, was, t, early + late)
  {
    hide Reasoned;
    assert DeniedBy(early + late) == DeniedBy(early) + DeniedBy(late) by {
      assert forall o :: o in early + late <==> o in early || o in late;
    }
  }

  /**
   * Mediating a window: every outcome has its reason, nothing is denied that could have waited, nothing
   * waits a seventh time, and the ledger has denied exactly the items the outcomes deny.
   */
  lemma MediationIsReasoned(s: Setup, optOuts: OptOuts, at: Instant, t: Tables, cands: seq<Candidate>)
    ensures var (outcomes, t') := FilterAndAllocate(s, optOuts, at, t, cands);
            && AllReasoned(s, outcomes)
            && t'.deniedRiskIds == t.deniedRiskIds + DeniedBy(outcomes)
  {
    var f := FilterCandidates(s.world, optOuts, at, t, cands);
    FilterAccounts(s, optOuts, at, Filtered(t, [], []), InOrder(cands, Customers(cands)), t.deniedRiskIds);
    AllocateForAccounts(s, at, f.tables, [], f.survivors, Customers(f.survivors), f.tables.deniedRiskIds);
    hide FilterAll, AllocateFor, Customers, InOrder, AllReasoned, DeniedBy;
    JoinAccounts(s, t.deniedRiskIds, f.tables, f.outcomes, AllocateWindow(s, at, f.tables, f.survivors).1,
                 AllocateWindow(s, at, f.tables, f.survivors).0);
  }

  // ---- The run ----

  ghost predicate DecisionsReasoned(s: Setup, decisions: seq<Decision>) {
    forall d :: d in decisions && d.Decided? ==> Reasoned(s, d.outcome)
  }

  lemma {:induction false} OnlyScopeDenials(cfg: RunSetup, actions: seq<Action>)
    requires TakeIn(cfg, actions).Ok?
    ensures forall d :: d in TakeIn(cfg, actions).value.decisions ==> d.ScopeDenied?
  {
    if actions != [] {
      OnlyScopeDenials(cfg, actions[..|actions| - 1]);
    }
  }

  lemma {:induction false} DecisionsOfReasoned(s: Setup, outcomes: seq<Outcome>)
    requires AllReasoned(s, outcomes)
    ensures DecisionsReasoned(s, DecisionsOf(outcomes))
  {
    hide Reasoned;
    if outcomes != [] {
      assert outcomes[0] in outcomes && forall o :: o in outcomes[1..] ==> o in outcomes;
      DecisionsOfReasoned(s, outcomes[1..]);
    }
  }

  lemma {:induction false} ExecutionDecidesNothing(cfg: RunSetup, oracle: Oracle, run: Run, outcomes: seq<Outcome>)
    requires ExecuteGrants(cfg, oracle, run, outcomes).Ok?
    ensures ExecuteGrants(cfg, oracle, run, outcomes).value.decisions == run.decisions
    decreases |outcomes|
  {
    if outcomes != [] {
      var o := outcomes[0];
      if o.grant.None? || o.effectiveBps.None? {
        ExecutionDecidesNothing(cfg, oracle, run, outcomes[1..]);
      } else {
        ExecutionDecidesNothing(
          cfg, oracle, ExecuteGrant(cfg, oracle, run, o.candidate, o.grant.value, o.effectiveBps.value).value,
          outcomes[1..]);
      }
    }
  }

  lemma WindowIsReasoned(cfg: RunSetup, oracle: Oracle, run: Run, w: Window, actions: seq<Action>)
    requires DecisionsReasoned(cfg.setup, run.decisions) && RunWindow(cfg, oracle, run, w, actions).Ok?
    ensures DecisionsReasoned(cfg.setup, RunWindow(cfg, oracle, run, w, actions).value.decisions)
  {
    var intake := TakeIn(cfg, NewActions(actions, w)).value;
    var (outcomes, mediated) := MediateWindow(cfg, run, w, intake);
    OnlyScopeDenials(cfg, NewActions(actions, w));
    MediationIsReasoned(cfg.setup, cfg.optOuts, WindowStartFor(w), run.tables, run.carried + intake.candidates);
    ExecutionDecidesNothing(cfg, oracle, mediated, outcomes);
    hide TakeIn, FilterAndAllocate, ExecuteGrants, Reasoned, NewActions;
    DecisionsOfReasoned(cfg.setup, outcomes);
  }

  lemma {:induction false} WindowsAreReasoned(cfg: RunSetup, oracle: Oracle, run: Run, w: Window, end: Window,
                                              actions: seq<Action>)
    requires DecisionsReasoned(cfg.setup, run.decisions) && RunWindows(cfg, oracle, run, w, end, actions).Ok?
    ensures DecisionsReasoned(cfg.setup, RunWindows(cfg, oracle, run, w, end, actions).value.decisions)
    decreases end - w
  {
    if w < end {
      WindowIsReasoned(cfg, oracle, run, w, actions);
      hide RunWindow, DecisionsReasoned;
      WindowsAreReasoned(cfg, oracle, RunWindow(cfg, oracle, run, w, actions).value, w + 1, end, actions);
    }
  }

  /** Every decision of every run that does not fail has its reason, whatever the setup. */
  lemma EveryDecisionIsReasoned(cfg: RunSetup, oracle: Oracle, actions: seq<Action>)
    requires RunLoop(cfg, oracle, actions).Ok?
    ensures DecisionsReasoned(cfg.setup, RunLoop(cfg, oracle, actions).value.decisions)
  {
    if actions != [] {
      WindowsAreReasoned(cfg, oracle, Initial(), FirstWindow(actions), LastWindow(actions) + 1, actions);
    }
  }
}
