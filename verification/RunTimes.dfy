/**
 * When the contacts of a run are made (sim/arm_b.py): never before the action was scheduled, at that
 * very time if nothing made it wait, and otherwise at 09:00 of the day its deferrals led to.
 */
module RunTimes {
  import opened Allocator
  import opened Clock
  import opened Contracts
  import opened Ledger
  import opened Margin
  import opened Noninterference
  import opened Reasons
  import opened RunAccounts
  import opened RunExecution
  import opened RunInvariant
  import opened RunSafety
  import opened Sorting
  import opened WindowEffects
  import opened WindowGrants
  import opened WindowLoop
  import opened Wrappers

  // ---- Arrival ----

  /** 09:00 of the day an action is scheduled on. */
  function NineOn(a: Action): Instant {
    WindowStartFor(WindowIdFor(a.scheduledAt))
  }

  /**
   * An action arrives when it is scheduled, from 09:00 on; an earlier one arrives at 09:00 of the same
   * day, which is the first window start not before it.
   */
  lemma ArrivalIsDue(a: Action)
    ensures AdjustedArrival(a) >= a.scheduledAt
    ensures AdjustedArrival(a) == a.scheduledAt <==> a.scheduledAt >= NineOn(a)
    ensures a.scheduledAt < NineOn(a) ==>
              && AdjustedArrival(a) == NineOn(a)
              && forall v :: WindowStartFor(v) >= a.scheduledAt ==> NineOn(a) <= WindowStartFor(v)
    ensures ArrivalWindow(a) == WindowIdFor(a.scheduledAt)
  {
    SendableBand(a.scheduledAt);
    WindowOfStart(WindowIdFor(a.scheduledAt));
    forall v | WindowStartFor(v) >= a.scheduledAt ensures v >= WindowIdFor(a.scheduledAt) {
      if v < WindowIdFor(a.scheduledAt) {
        StartsBefore(v, a.scheduledAt);
      }
    }
  }

  lemma StartsBefore(v: Window, t: Instant)
    requires v < WindowIdFor(t)
    ensures WindowStartFor(v) < t
  {
    var local := t + IST_OFFSET;
    assert local == WindowIdFor(t) * DAY + local % DAY;
    assert (v + 1) * DAY <= WindowIdFor(t) * DAY;
  }

  /** Agent by agent, and by risk item within an agent. */
  ghost predicate ByAgentAndItem(actions: seq<Action>) {
    forall i, j :: 0 <= i < j < |actions| ==>
      && actions[i].agentId <= actions[j].agentId
      && (actions[i].agentId == actions[j].agentId ==> actions[i].riskId <= actions[j].riskId)
  }

  /** What a day takes in: exactly the actions scheduled on it, as often as they were asked for, in order. */
  lemma TakenInByDay(actions: seq<Action>, w: Window, a: Action)
    ensures ByAgentAndItem(NewActions(actions, w))
    ensures multiset(NewActions(actions, w))[a] == if WindowIdFor(a.scheduledAt) == w then multiset(actions)[a] else 0
  {
    SortSorts(ArrivingIn(actions, w), ActionLe);
    ArrivingCounts(actions, w, a);
    var taken := NewActions(actions, w);
    forall i, j | 0 <= i < j < |taken| ensures ActionLe(taken[i], taken[j]) {
    }
  }

  lemma {:induction false} ArrivingCounts(actions: seq<Action>, w: Window, a: Action)
    ensures multiset(ArrivingIn(actions, w))[a] == if WindowIdFor(a.scheduledAt) == w then multiset(actions)[a] else 0
  {
    if actions != [] {
      assert actions == [actions[0]] + actions[1..];
      ArrivalIsDue(actions[0]);
      ArrivingCounts(actions[1..], w, a);
    }
  }

  /** A run goes from the first day something is scheduled on to eight days after the last. */
  lemma {:induction false} RunSpan(actions: seq<Action>, a: Action)
    requires a in actions
    ensures FirstWindow(actions) <= WindowIdFor(a.scheduledAt) <= LastWindow(actions) - 8
    ensures exists first, last ::
            first in actions && last in actions && FirstWindow(actions) == WindowIdFor(first.scheduledAt)
                                  && LastWindow(actions) == WindowIdFor(last.scheduledAt) + 8
  {
    ArrivalIsDue(actions[0]);
    if |actions| == 1 {
      assert actions[0] in actions;
    } else {
      var rest := actions[1..];
      assert actions == [actions[0]] + rest;
      RunSpan(rest, if a in rest then a else rest[0]);
      var first, last :| first in rest && last in rest && FirstWindow(rest) == WindowIdFor(first.scheduledAt)
                         && LastWindow(rest) == WindowIdFor(last.scheduledAt) + 8;
      var earlier := if ArrivalWindow(actions[0]) <= FirstWindow(rest) then actions[0] else first;
      var later := if ArrivalWindow(actions[0]) <= LastArrival(rest) then last else actions[0];
      assert earlier in actions && later in actions;
      assert FirstWindow(actions) == WindowIdFor(earlier.scheduledAt);
      assert LastWindow(actions) == WindowIdFor(later.scheduledAt) + 8;
    }
  }

  /** A candidate as it comes in, or why it does not. */
  lemma CandidateMeans(request: GrantRequest, item: RiskItem, customer: CustomerId, sendAfter: Instant)
    ensures var r := BuildCandidate(request, item, customer, sendAfter);
            && (r == Err(RiskItemMismatch) <==> item.riskId != request.riskId)
            && (r == Err(IncentiveTooLarge) <==> item.riskId == request.riskId && request.maxIncentiveBps >= 10_000)
            && (r.Ok? ==>
                  && r.value.request == request && r.value.item == item && r.value.customerId == customer
                  && r.value.sendAfter == sendAfter && r.value.windowId == WindowIdFor(sendAfter)
                  && r.value.windowsDeferred == 0
                  && r.value.requestedCeilingPaise * 10_000 <= item.amountPaise * request.maxIncentiveBps
                     < (r.value.requestedCeilingPaise + 1) * 10_000)
  {
    FloorBounds(item.amountPaise * request.maxIncentiveBps, 10_000);
  }

  // ---- When a candidate is due ----

  /** The time an action is due once it has been deferred this often. */
  function DueAt(a: Action, deferrals: int): Instant {
    if deferrals == 0 then (if a.scheduledAt >= NineOn(a) then a.scheduledAt else NineOn(a))
    else WindowStartFor(WindowIdFor(a.scheduledAt) + deferrals)
  }

  lemma DueLater(a: Action, deferrals: nat)
    ensures DueAt(a, deferrals) >= a.scheduledAt
    ensures WindowIdFor(DueAt(a, deferrals)) == WindowIdFor(a.scheduledAt) + deferrals
    ensures deferrals > 0 ==> DueAt(a, deferrals) > a.scheduledAt
  {
    WindowOfStart(WindowIdFor(a.scheduledAt));
    WindowOfStart(WindowIdFor(a.scheduledAt) + deferrals);
    var local := a.scheduledAt + IST_OFFSET;
    assert local == WindowIdFor(a.scheduledAt) * DAY + local % DAY;
  }

  ghost predicate DueFrom(cfg: RunSetup, a: Action, c: Candidate) {
    && c.request == ToGrantRequest(cfg, a) && a.riskId in cfg.registry.riskItems
    && c.item == cfg.registry.riskItems[a.riskId].0 && c.item.riskId == a.riskId
    && c.sendAfter == DueAt(a, c.windowsDeferred)
  }

  ghost predicate Due(cfg: RunSetup, actions: seq<Action>, c: Candidate) {
    exists a :: a in actions && DueFrom(cfg, a, c)
  }

  ghost predicate AllDue(cfg: RunSetup, actions: seq<Action>, cands: seq<Candidate>) {
    forall c :: c in cands ==> Due(cfg, actions, c)
  }

  /** What each request asks for, in the words of its action. */
  lemma RequestOfAction(cfg: RunSetup, a: Action)
    ensures var r := ToGrantRequest(cfg, a);
            && r.agentId == a.agentId && r.riskId == a.riskId && r.customerId == a.customerId
            && r.channel == a.channel && r.intent == a.intent && r.maxIncentiveBps == a.incentiveBps
            && r.issuedAt == a.scheduledAt && r.requestId == cfg.requestIdFor(a.agentId, a.riskId)
  {
  }

  lemma {:induction false} TakenInAreDue(cfg: RunSetup, actions: seq<Action>, part: seq<Action>)
    requires TakeIn(cfg, part).Ok? && forall a :: a in part ==> a in actions
    ensures AllDue(cfg, actions, TakeIn(cfg, part).value.candidates)
  {
    if part != [] {
      var n := |part| - 1;
      var a := part[n];
      TakenInAreDue(cfg, actions, part[..n]);
      assert a in part;
      ArrivalIsDue(a);
      hide AdjustedArrival, NineOn;
      var earlier, all := TakeIn(cfg, part[..n]).value.candidates, TakeIn(cfg, part).value.candidates;
      forall c | c in all ensures Due(cfg, actions, c) {
        if c !in earlier {
          assert DueFrom(cfg, a, c);
        }
      }
    }
  }

  /** A deferral moves a candidate to the 09:00 it is then due at. */
  lemma CarriedIsDue(cfg: RunSetup, actions: seq<Action>, c: Candidate, w: Window)
    requires Due(cfg, actions, c) && InWindow(c, w)
    ensures Due(cfg, actions, CarriedTo(c, w + 1))
  {
    var a :| a in actions && DueFrom(cfg, a, c);
    DueLater(a, c.windowsDeferred);
    assert DueFrom(cfg, a, CarriedTo(c, w + 1));
  }

  // ---- When a contact is made ----

  /** A contact of this action, made when it was due after this many deferrals, on the terms asked for. */
  ghost predicate MadeAfter(a: Action, k: Contact, deferrals: nat) {
    && k.agentId == a.agentId && k.riskId == a.riskId && k.customerId == a.customerId && k.channel == a.channel
    && 0 <= k.incentiveBps <= a.incentiveBps
    && k.contactedAt == DueAt(a, deferrals)
  }

  /** All or nothing: a recovered item brings its whole amount at the rate's own incentive, any other nothing. */
  ghost predicate Settles(k: Contact, item: RiskItem) {
    if k.recovered
    then && k.amountRecoveredPaise == item.amountPaise
         && k.incentivePaise * 10_000 <= item.amountPaise * k.incentiveBps < (k.incentivePaise + 1) * 10_000
    else k.amountRecoveredPaise == 0 && k.incentivePaise == 0
  }

  /** The contact of a decision to grant, made when its candidate was due. */
  ghost predicate MadeWhenDue(cfg: RunSetup, actions: seq<Action>, decisions: seq<Decision>, k: Contact) {
    exists a, o :: a in actions && Decided(o) in decisions && o.kind.Granted? && DueFrom(cfg, a, o.candidate)
                   && MadeAfter(a, k, o.candidate.windowsDeferred) && Settles(k, o.candidate.item)
  }

  ghost predicate ContactsMadeWhenDue(cfg: RunSetup, actions: seq<Action>, decisions: seq<Decision>,
                                      contacts: seq<Contact>)
  {
    forall k :: k in contacts ==> MadeWhenDue(cfg, actions, decisions, k)
  }

  lemma StillMadeWhenDue(cfg: RunSetup, actions: seq<Action>, decisions: seq<Decision>, more: seq<Decision>,
                         contacts: seq<Contact>)
    requires ContactsMadeWhenDue(cfg, actions, decisions, contacts) && forall d :: d in decisions ==> d in more
    ensures ContactsMadeWhenDue(cfg, actions, more, contacts)
  {
    hide DueFrom, MadeAfter, Settles;
    forall k | k in contacts ensures MadeWhenDue(cfg, actions, more, k) {
      var a, o :| a in actions && Decided(o) in decisions && o.kind.Granted? && DueFrom(cfg, a, o.candidate)
                  && MadeAfter(a, k, o.candidate.windowsDeferred) && Settles(k, o.candidate.item);
      assert Decided(o) in more;
    }
  }

  lemma GrantedIsMadeWhenDue(cfg: RunSetup, actions: seq<Action>, decisions: seq<Decision>, o: Outcome, recovered: bool)
    requires o.kind.Granted? && FairGrant(o) && Due(cfg, actions, o.candidate) && Decided(o) in decisions
    ensures MadeWhenDue(cfg, actions, decisions, Observe(o.candidate, o.grant.value, o.effectiveBps.value, recovered))
  {
    var k := Observe(o.candidate, o.grant.value, o.effectiveBps.value, recovered);
    var a :| a in actions && DueFrom(cfg, a, o.candidate);
    SettlesAsObserved(o.candidate, o.grant.value, o.effectiveBps.value, recovered);
    hide DueAt, Settles;
    assert MadeAfter(a, k, o.candidate.windowsDeferred);
  }

  lemma SettlesAsObserved(c: Candidate, grant: Grant, bps: int, recovered: bool)
    ensures Settles(Observe(c, grant, bps, recovered), c.item)
            && Observe(c, grant, bps, recovered).recovered == recovered
  {
    FloorBounds(c.item.amountPaise * bps, 10_000);
  }

  lemma {:induction false} ExecutedWhenDue(cfg: RunSetup, oracle: Oracle, actions: seq<Action>, run: Run,
                                           outcomes: seq<Outcome>)
    requires ExecuteGrants(cfg, oracle, run, outcomes).Ok?
    requires ContactsMadeWhenDue(cfg, actions, run.decisions, run.contacts)
    requires forall o :: o in outcomes && o.grant.Some? && o.effectiveBps.Some? ==>
               o.kind.Granted? && FairGrant(o) && Due(cfg, actions, o.candidate) && Decided(o) in run.decisions
    ensures ContactsMadeWhenDue(cfg, actions, run.decisions, ExecuteGrants(cfg, oracle, run, outcomes).value.contacts)
    decreases |outcomes|
  {
    if outcomes != [] {
      var o := outcomes[0];
      assert o in outcomes && forall x :: x in outcomes[1..] ==> x in outcomes;
      if o.grant.None? || o.effectiveBps.None? {
        ExecutedWhenDue(cfg, oracle, actions, run, outcomes[1..]);
      } else {
        var bps := o.effectiveBps.value;
        GrantedIsMadeWhenDue(cfg, actions, run.decisions, o, oracle(|run.contacts|, o.candidate, bps));
        var next := ExecuteGrant(cfg, oracle, run, o.candidate, o.grant.value, bps).value;
        hide FairGrant, Due, MadeWhenDue, Transition, Observe;
        assert next.contacts == run.contacts + [Observe(o.candidate, o.grant.value, bps,
                                                        oracle(|run.contacts|, o.candidate, bps))];
        ExecutedWhenDue(cfg, oracle, actions, next, outcomes[1..]);
      }
    }
  }

  // ---- The run ----

  ghost predicate OnTime(cfg: RunSetup, actions: seq<Action>, run: Run) {
    AllDue(cfg, actions, run.carried) && ContactsMadeWhenDue(cfg, actions, run.decisions, run.contacts)
  }

  lemma PresentedAreDue(cfg: RunSetup, actions: seq<Action>, run: Run, w: Window)
    requires TakeIn(cfg, NewActions(actions, w)).Ok? && AllDue(cfg, actions, run.carried)
    ensures AllDue(cfg, actions, run.carried + TakeIn(cfg, NewActions(actions, w)).value.candidates)
  {
    ArrivingMembers(actions, w);
    SameMembers(ArrivingIn(actions, w), NewActions(actions, w));
    TakenInAreDue(cfg, actions, NewActions(actions, w));
    hide TakeIn, NewActions, Due;
  }

  lemma OutcomesAreDue(cfg: RunSetup, actions: seq<Action>, outcomes: seq<Outcome>, cands: seq<Candidate>, w: Window)
    requires AllDue(cfg, actions, cands) && AllShaped(outcomes, w)
    requires forall o :: o in outcomes ==> o.candidate in cands
    ensures AllDue(cfg, actions, RescheduledOf(outcomes))
  {
    RescheduledMembers(outcomes, w);
    forall c | c in RescheduledOf(outcomes) ensures Due(cfg, actions, c) {
      var i :| 0 <= i < |outcomes| && outcomes[i].kind.Deferred? && c == CarriedTo(outcomes[i].candidate, w + 1);
      assert outcomes[i] in outcomes;
      assert Shaped(outcomes[i], w);
      CarriedIsDue(cfg, actions, outcomes[i].candidate, w);
    }
  }

  lemma WindowIsOnTime(cfg: RunSetup, oracle: Oracle, actions: seq<Action>, run: Run, w: Window)
    requires ValidSetup(cfg, actions) && RunInv(cfg, actions, run, w) && OnTime(cfg, actions, run)
    ensures RunWindow(cfg, oracle, run, w, actions).Ok?
    ensures OnTime(cfg, actions, RunWindow(cfg, oracle, run, w, actions).value)
  {
    MediateKeeps(cfg, actions, run, w);
    WindowKeepsInvariant(cfg, oracle, actions, run, w);
    PresentedAreDue(cfg, actions, run, w);
    var intake := TakeIn(cfg, NewActions(actions, w)).value;
    var (outcomes, mediated) := MediateWindow(cfg, run, w, intake);
    var cands := run.carried + intake.candidates;
    MediatedAreFair(cfg, actions, run, mediated, outcomes, cands, w);
    EveryOutcomeIsDecided(outcomes);
    assert mediated.decisions == run.decisions + intake.decisions + DecisionsOf(outcomes);
    hide TakeIn, MediateWindow, Mediated, RunInv, ValidSetup, Due, FairGrant, Shaped;
    OutcomesAreDue(cfg, actions, outcomes, cands, w);
    StillMadeWhenDue(cfg, actions, run.decisions, mediated.decisions, run.contacts);
    ExecutedWhenDue(cfg, oracle, actions, mediated, outcomes);
    ExecutionDecidesNothing(cfg, oracle, mediated, outcomes);
  }

  lemma {:induction false} EveryOutcomeIsDecided(outcomes: seq<Outcome>)
    ensures forall o :: o in outcomes ==> Decided(o) in DecisionsOf(outcomes)
  {
    if outcomes != [] {
      EveryOutcomeIsDecided(outcomes[1..]);
    }
  }

  /** What mediation says of its outcomes, one by one. */
  lemma MediatedAreFair(cfg: RunSetup, actions: seq<Action>, run: Run, mediated: Run, outcomes: seq<Outcome>,
                        cands: seq<Candidate>, w: Window)
    requires Mediated(cfg, actions, run, mediated, outcomes, cands, w)
    ensures AllShaped(outcomes, w) && mediated.contacts == run.contacts && mediated.carried == RescheduledOf(outcomes)
    ensures forall o :: o in outcomes ==> o.candidate in cands && FairGrant(o)
    ensures forall o :: o in outcomes && o.grant.Some? ==> o.kind.Granted?
  {
    UniqueSubjects(outcomes, cands);
    forall o | o in outcomes ensures Shaped(o, w) && FairGrant(o) {
      assert Executable(cfg, o, w);
    }
  }

  lemma {:induction false} WindowsAreOnTime(cfg: RunSetup, oracle: Oracle, actions: seq<Action>, run: Run, w: Window,
                                            end: Window)
    requires ValidSetup(cfg, actions) && RunInv(cfg, actions, run, w) && OnTime(cfg, actions, run)
    ensures RunWindows(cfg, oracle, run, w, end, actions).Ok?
    ensures OnTime(cfg, actions, RunWindows(cfg, oracle, run, w, end, actions).value)
    decreases end - w
  {
    if w < end {
      WindowKeepsInvariant(cfg, oracle, actions, run, w);
      WindowIsOnTime(cfg, oracle, actions, run, w);
      hide RunWindow, OnTime, RunInv, ValidSetup;
      WindowsAreOnTime(cfg, oracle, actions, RunWindow(cfg, oracle, run, w, actions).value, w + 1, end);
    }
  }

  lemma RunIsOnTime(cfg: RunSetup, oracle: Oracle, actions: seq<Action>)
    requires ValidSetup(cfg, actions)
    ensures RunLoop(cfg, oracle, actions).Ok? && OnTime(cfg, actions, RunLoop(cfg, oracle, actions).value)
  {
    if actions != [] {
      InitialRun(cfg, actions, FirstWindow(actions));
      WindowsAreOnTime(cfg, oracle, actions, Initial(), FirstWindow(actions), LastWindow(actions) + 1);
    }
  }

  /** The decision a contact comes from is in the history of its risk item. */
  lemma {:induction false} InHistory(decisions: seq<Decision>, o: Outcome, risk: RiskId)
    requires Decided(o) in decisions && o.candidate.item.riskId == risk
    ensures o in About(Decisions(decisions), risk)
  {
    if decisions[0] != Decided(o) {
      InHistory(decisions[1..], o, risk);
    }
    AboutConcat(if decisions[0].Decided? then [decisions[0].outcome] else [], Decisions(decisions[1..]), risk);
  }

  /** The action's history: so many deferrals, and then a grant. */
  ghost predicate AfterDeferrals(run: Run, a: Action, deferrals: nat) {
    var h := History(run, a.riskId);
    && |h| == deferrals + 1 && h[deferrals].kind.Granted?
    && forall i :: 0 <= i < deferrals ==> h[i].kind.Deferred?
  }

  /** A granted outcome is the last word on its item, after one deferral for each window it waited. */
  lemma OnlyDecisionAbout(cfg: RunSetup, run: Run, a: Action, o: Outcome)
    requires AccountedFor(cfg, run, a) && Decided(o) in run.decisions && o.kind.Granted?
    requires o.candidate.item.riskId == a.riskId
    ensures AfterDeferrals(run, a, o.candidate.windowsDeferred)
  {
    var h := History(run, a.riskId);
    InHistory(run.decisions, o, a.riskId);
    var i :| 0 <= i < |h| && h[i] == o;
    assert DayOf(a, h[i], i);
  }

  /** The contact of a finished run, from what is known of it when it ends. */
  lemma ContactIsDue(cfg: RunSetup, actions: seq<Action>, run: Run, k: Contact) returns (a: Action, deferrals: nat)
    requires OnTime(cfg, actions, run) && k in run.contacts
    requires forall a :: a in actions ==> AccountedFor(cfg, run, a)
    ensures a in actions && MadeAfter(a, k, deferrals) && AfterDeferrals(run, a, deferrals)
    ensures a.riskId in cfg.registry.riskItems && Settles(k, cfg.registry.riskItems[a.riskId].0)
  {
    assert MadeWhenDue(cfg, actions, run.decisions, k);
    hide OnTime, AccountedFor, AfterDeferrals, DueAt, Settles;
    var b, o :| b in actions && Decided(o) in run.decisions && o.kind.Granted? && DueFrom(cfg, b, o.candidate)
                && MadeAfter(b, k, o.candidate.windowsDeferred) && Settles(k, o.candidate.item);
    assert o.candidate.item.riskId == b.riskId;
    a, deferrals := b, o.candidate.windowsDeferred;
    hide MadeAfter, DueFrom;
    OnlyDecisionAbout(cfg, run, a, o);
  }

  lemma EveryActionAccounted(cfg: RunSetup, oracle: Oracle, actions: seq<Action>)
    requires ValidSetup(cfg, actions)
    ensures RunLoop(cfg, oracle, actions).Ok?
    ensures forall a :: a in actions ==> AccountedFor(cfg, RunLoop(cfg, oracle, actions).value, a)
  {
    RunIsOnTime(cfg, oracle, actions);
    hide RunLoop, ValidSetup, AccountedFor, OnTime;
    forall a | a in actions ensures AccountedFor(cfg, RunLoop(cfg, oracle, actions).value, a) {
      EveryActionIsAccountedFor(cfg, oracle, actions, a);
    }
  }

  /**
   * In every run, every contact is made on its action's own terms, brings the recorded item's amount or
   * nothing, and is made when it is due: at the time it was scheduled or, for an early one, at 09:00 of
   * that day if nothing deferred it, and at 09:00 of the n-th day after if it was deferred n times.
   */
  lemma EveryContactIsDue(cfg: RunSetup, oracle: Oracle, actions: seq<Action>, k: Contact)
    returns (a: Action, deferrals: nat)
    requires ValidSetup(cfg, actions)
    requires RunLoop(cfg, oracle, actions).Ok? && k in RunLoop(cfg, oracle, actions).value.contacts
    ensures a in actions && MadeAfter(a, k, deferrals)
    ensures a.riskId in cfg.registry.riskItems && Settles(k, cfg.registry.riskItems[a.riskId].0)
    ensures AfterDeferrals(RunLoop(cfg, oracle, actions).value, a, deferrals)
    ensures k.contactedAt >= a.scheduledAt
    ensures deferrals == 0 && a.scheduledAt >= NineOn(a) ==> k.contactedAt == a.scheduledAt
    ensures deferrals == 0 && a.scheduledAt < NineOn(a) ==> k.contactedAt == NineOn(a)
    ensures deferrals > 0 ==> k.contactedAt == WindowStartFor(WindowIdFor(a.scheduledAt) + deferrals)
  {
    RunIsOnTime(cfg, oracle, actions);
    EveryActionAccounted(cfg, oracle, actions);
    hide RunLoop, ValidSetup, OnTime, AccountedFor, AfterDeferrals, Settles;
    a, deferrals := ContactIsDue(cfg, actions, RunLoop(cfg, oracle, actions).value, k);
    DueLater(a, deferrals);
  }

  /** A history in which only the seventh outcome can be for want of windows, and nothing waits after it. */
  ghost predicate WaitsSixTimesAtMost(h: seq<Outcome>) {
    && |h| <= 7
    && (forall i :: 0 <= i < |h| && h[i].kind.Deferred? ==> i < 6)
    && (forall i :: 0 <= i < |h| && h[i].reason == Some(DeferralExhausted) ==>
          i == 6 && |h| == 7 && h[i].kind.Denied? && forall j :: 0 <= j < 6 ==> h[j].kind.Deferred?)
    && (forall i :: 0 <= i < |h| && i < 6 && h[i].kind.Denied? ==>
          h[i].reason.Some? && (Permanent(h[i].reason.value) || h[i].reason.value.NegativeExpectedNet?))
  }

  lemma AccountedHistory(cfg: RunSetup, run: Run, a: Action)
    requires AccountedFor(cfg, run, a) && DecisionsReasoned(cfg.setup, run.decisions)
    ensures WaitsSixTimesAtMost(History(run, a.riskId))
  {
    var h := History(run, a.riskId);
    forall i | 0 <= i < |h| ensures Reasoned(cfg.setup, h[i]) && DayOf(a, h[i], i) {
      HistoryIsDecided(run.decisions, a.riskId, h[i]);
    }
  }

  /** In a run a denial for want of windows comes after exactly six deferrals, and never earlier. */
  lemma ExhaustedAfterSixDeferrals(cfg: RunSetup, oracle: Oracle, actions: seq<Action>, a: Action)
    requires ValidSetup(cfg, actions) && a in actions && RunLoop(cfg, oracle, actions).Ok?
    ensures WaitsSixTimesAtMost(History(RunLoop(cfg, oracle, actions).value, a.riskId))
  {
    EveryActionIsAccountedFor(cfg, oracle, actions, a);
    EveryDecisionIsReasoned(cfg, oracle, actions);
    hide RunLoop, ValidSetup, WaitsSixTimesAtMost, AccountedFor, DecisionsReasoned;
    AccountedHistory(cfg, RunLoop(cfg, oracle, actions).value, a);
  }

  lemma {:induction false} HistoryIsDecided(decisions: seq<Decision>, risk: RiskId, o: Outcome)
    requires o in About(Decisions(decisions), risk)
    ensures Decided(o) in decisions
  {
    var own := if decisions[0].Decided? then [decisions[0].outcome] else [];
    AboutConcat(own, Decisions(decisions[1..]), risk);
    if o in About(Decisions(decisions[1..]), risk) {
      HistoryIsDecided(decisions[1..], risk, o);
    }
  }
}
