/**
 * The accounts of a whole run: every verified action is deferred at most six times, on consecutive
 * days, and then granted or denied once and for all; an unverified one is denied on scope once.
 */
module RunAccounts {
  import opened Allocator
  import opened AllocatorProperties
  import opened Clock
  import opened Contracts
  import opened MediationOutcomes
  import opened Noninterference
  import opened RunExecution
  import opened RunInvariant
  import opened RunSafety
  import opened Sorting
  import opened WindowEffects
  import opened WindowLoop
  import opened Wrappers

  // ---- What was decided about one risk item, and about one request ----

  ghost function About(outcomes: seq<Outcome>, risk: RiskId): seq<Outcome> {
    if outcomes == [] then [] else
      (if outcomes[0].candidate.item.riskId == risk then [outcomes[0]] else []) + About(outcomes[1..], risk)
  }

  ghost function Decisions(decisions: seq<Decision>): seq<Outcome> {
    if decisions == [] then [] else
      (if decisions[0].Decided? then [decisions[0].outcome] else []) + Decisions(decisions[1..])
  }

  /** Every outcome the run has decided for a risk item, in order. */
  ghost function History(run: Run, risk: RiskId): seq<Outcome> {
    About(Decisions(run.decisions), risk)
  }

  ghost function ScopeDenials(decisions: seq<Decision>, id: RequestId): nat {
    if decisions == [] then 0 else
      (if decisions[0].ScopeDenied? && decisions[0].requestId == id then 1 else 0) + ScopeDenials(decisions[1..], id)
  }

  lemma {:induction false} AboutConcat(a: seq<Outcome>, b: seq<Outcome>, risk: RiskId)
    ensures About(a + b, risk) == About(a, risk) + About(b, risk)
  {
    if a == [] {
      assert a + b == b;
    } else {
      var rest, own := a[1..], if a[0].candidate.item.riskId == risk then [a[0]] else [];
      AboutConcat(rest, b, risk);
      assert (a + b)[1..] == rest + b && (a + b)[0] == a[0];
      assert About(a + b, risk) == own + About(rest + b, risk);
      assert own + (About(rest, risk) + About(b, risk)) == (own + About(rest, risk)) + About(b, risk);
    }
  }

  lemma {:induction false} DecisionsConcat(a: seq<Decision>, b: seq<Decision>, id: RequestId)
    ensures Decisions(a + b) == Decisions(a) + Decisions(b)
    ensures ScopeDenials(a + b, id) == ScopeDenials(a, id) + ScopeDenials(b, id)
  {
    if a == [] {
      assert a + b == b;
    } else {
      var rest, own := a[1..], if a[0].Decided? then [a[0].outcome] else [];
      DecisionsConcat(rest, b, id);
      assert (a + b)[1..] == rest + b && (a + b)[0] == a[0];
      assert Decisions(a + b) == own + Decisions(rest + b);
      assert own + (Decisions(rest) + Decisions(b)) == (own + Decisions(rest)) + Decisions(b);
    }
  }

  lemma {:induction false} DecidedOutcomes(outcomes: seq<Outcome>, id: RequestId)
    ensures Decisions(DecisionsOf(outcomes)) == outcomes && ScopeDenials(DecisionsOf(outcomes), id) == 0
  {
    if outcomes != [] {
      DecidedOutcomes(outcomes[1..], id);
    }
  }

  lemma {:induction false} AboutNone(outcomes: seq<Outcome>, risk: RiskId)
    requires forall o :: o in outcomes ==> o.candidate.item.riskId != risk
    ensures About(outcomes, risk) == []
  {
    if outcomes != [] {
      assert outcomes[0] in outcomes;
      AboutNone(outcomes[1..], risk);
    }
  }

  lemma {:induction false} AboutOne(outcomes: seq<Outcome>, i: nat)
    requires DistinctSubjects(outcomes) && i < |outcomes|
    ensures About(outcomes, outcomes[i].candidate.item.riskId) == [outcomes[i]]
  {
    var risk := outcomes[i].candidate.item.riskId;
    if i == 0 {
      forall o | o in outcomes[1..] ensures o.candidate.item.riskId != risk {
        var j :| 0 <= j < |outcomes[1..]| && outcomes[1..][j] == o;
        assert outcomes[j + 1] == o;
      }
      AboutNone(outcomes[1..], risk);
    } else {
      assert outcomes[1..][i - 1] == outcomes[i];
      AboutOne(outcomes[1..], i - 1);
    }
  }

  // ---- Intake ----

  /** Taking in one more request adds either a scope denial or a candidate. */
  lemma TakeInLast(cfg: RunSetup, part: seq<Action>)
    requires part != [] && TakeIn(cfg, part).Ok?
    ensures TakeIn(cfg, part[..|part| - 1]).Ok?
    ensures var earlier, intake := TakeIn(cfg, part[..|part| - 1]).value, TakeIn(cfg, part).value;
            var request := ToGrantRequest(cfg, part[|part| - 1]);
            if Verified(cfg, part[|part| - 1])
            then intake.decisions == earlier.decisions
                 && exists c: Candidate :: c.request == request && intake.candidates == earlier.candidates + [c]
            else intake.candidates == earlier.candidates
                 && exists reason :: intake.decisions
                      == earlier.decisions + [Decision.ScopeDenied(request.requestId, reason)]
  {
  }

  /** Exactly the unverified requests are denied on scope, once each. */
  lemma {:induction false} IntakeDenies(cfg: RunSetup, part: seq<Action>, a: Action)
    requires InjectiveIds(cfg) && DistinctActions(part) && TakeIn(cfg, part).Ok?
    requires forall b :: b in part && b.riskId == a.riskId ==> a == b
    ensures Decisions(TakeIn(cfg, part).value.decisions) == []
    ensures ScopeDenials(TakeIn(cfg, part).value.decisions, ToGrantRequest(cfg, a).requestId)
            == (if a in part && !Verified(cfg, a) then 1 else 0)
  {
    if part != [] {
      var n := |part| - 1;
      TakeInLast(cfg, part);
      PrefixIsDistinct(part, n);
      IntakeDenies(cfg, part[..n], a);
      assert part == part[..n] + [part[n]];
      assert part[n] in part;
      LastIsNew(part);
      if !Verified(cfg, part[n]) {
        var earlier, request := TakeIn(cfg, part[..n]).value, ToGrantRequest(cfg, part[n]);
        var reason :| TakeIn(cfg, part).value.decisions
            == earlier.decisions + [Decision.ScopeDenied(request.requestId, reason)];
        DecisionsConcat(earlier.decisions, [Decision.ScopeDenied(request.requestId, reason)],
                        ToGrantRequest(cfg, a).requestId);
      }
    }
  }

  lemma LastIsNew(part: seq<Action>)
    requires part != [] && DistinctActions(part)
    ensures part[|part| - 1] !in part[..|part| - 1]
  {
    var n := |part| - 1;
    forall i | 0 <= i < n ensures part[..n][i] != part[n] {
      DistinctActionIndices(part, i, n);
    }
  }

  /** Every verified request becomes a candidate. */
  lemma {:induction false} IntakeKeeps(cfg: RunSetup, part: seq<Action>, a: Action)
    requires TakeIn(cfg, part).Ok? && a in part && Verified(cfg, a)
    ensures exists c :: c in TakeIn(cfg, part).value.candidates && c.request == ToGrantRequest(cfg, a)
  {
    var n := |part| - 1;
    TakeInLast(cfg, part);
    var earlier, intake := TakeIn(cfg, part[..n]).value, TakeIn(cfg, part).value;
    if part[n] == a {
      var c: Candidate :| c.request == ToGrantRequest(cfg, a) && intake.candidates == earlier.candidates + [c];
      assert c in intake.candidates;
    } else {
      IntakeKeeps(cfg, part[..n], a);
      var c :| c in earlier.candidates && c.request == ToGrantRequest(cfg, a);
      assert c in intake.candidates;
    }
  }

  // ---- The life of one action ----

  predicate AnyAbout(cands: seq<Candidate>, risk: RiskId) {
    exists i :: 0 <= i < |cands| && cands[i].item.riskId == risk
  }

  /** The i-th decision about the action: presented once per day from its arrival, older each time. */
  ghost predicate DayOf(a: Action, o: Outcome, i: nat) {
    && o.candidate.item.riskId == a.riskId && o.candidate.customerId == a.customerId
    && o.candidate.windowsDeferred == i && o.candidate.windowId == ArrivalWindow(a) + i
  }

  /** One decision a day, at most seven of them, all but the last a deferral. */
  ghost predicate OrderlyLife(a: Action, h: seq<Outcome>) {
    && 1 <= |h| <= MAX_DEFERRAL_WINDOWS
    && (forall i :: 0 <= i < |h| ==> DayOf(a, h[i], i))
    && (forall i :: 0 <= i < |h| - 1 ==> h[i].kind.Deferred?)
  }

  /** Where an action that arrived before `w` stands when window `w` opens. */
  ghost predicate Standing(a: Action, h: seq<Outcome>, run: Run, w: Window) {
    && OrderlyLife(a, h)
    && (h[|h| - 1].kind.Deferred? <==> AnyAbout(run.carried, a.riskId))
    && (h[|h| - 1].kind.Deferred? ==> |h| == w - ArrivalWindow(a))
    && (h[|h| - 1].kind.Granted? <==> Observed(run.contacts, a.riskId))
  }

  ghost predicate AccountOf(cfg: RunSetup, a: Action, run: Run, w: Window) {
    var h, denials := History(run, a.riskId), ScopeDenials(run.decisions, ToGrantRequest(cfg, a).requestId);
    if ArrivalWindow(a) < w && Verified(cfg, a) then
      Standing(a, h, run, w) && denials == 0
    else
      h == [] && denials == (if ArrivalWindow(a) < w then 1 else 0)
      && !AnyAbout(run.carried, a.riskId) && !Observed(run.contacts, a.riskId)
  }

  // ---- One window of one action's life ----

  /** At most one outcome of a window concerns the action, and exactly if it was presented. */
  lemma OutcomeOfAction(outcomes: seq<Outcome>, cands: seq<Candidate>, risk: RiskId)
    requires UniqueRisks(cands) && multiset(Subjects(outcomes)) == multiset(cands)
    ensures var about := About(outcomes, risk);
            if AnyAbout(cands, risk) then |about| == 1 && about[0] in outcomes && about[0].candidate.item.riskId == risk
              else about == []
  {
    UniqueSubjects(outcomes, cands);
    SubjectsIndex(outcomes);
    SameMembers(Subjects(outcomes), cands);
    if AnyAbout(cands, risk) {
      var i :| 0 <= i < |cands| && cands[i].item.riskId == risk;
      assert cands[i] in Subjects(outcomes);
      var j :| 0 <= j < |outcomes| && Subjects(outcomes)[j] == cands[i];
      AboutOne(outcomes, j);
    } else {
      forall o | o in outcomes ensures o.candidate.item.riskId != risk {
        var i :| 0 <= i < |cands| && cands[i] == o.candidate;
      }
      AboutNone(outcomes, risk);
    }
  }

  /** What the window's one outcome about the action, if any, leaves behind. */
  lemma AfterOutcome(run: Run, done: Run, outcomes: seq<Outcome>, cands: seq<Candidate>, risk: RiskId, w: Window)
    requires UniqueRisks(cands) && multiset(Subjects(outcomes)) == multiset(cands)
    requires forall o :: o in outcomes ==> Shaped(o, w)
    requires done.carried == RescheduledOf(outcomes)
    requires forall r :: Observed(done.contacts, r) <==> Observed(run.contacts, r) || GrantedAbout(outcomes, r)
    ensures var about := About(outcomes, risk);
            && (AnyAbout(done.carried, risk) <==> about != [] && about[0].kind.Deferred?)
            && (Observed(done.contacts, risk)
                <==> Observed(run.contacts, risk) || (about != [] && about[0].kind.Granted?))
  {
    OutcomeOfAction(outcomes, cands, risk);
    UniqueSubjects(outcomes, cands);
    RescheduledMembers(outcomes, w);
    forall i | 0 <= i < |outcomes| && outcomes[i].candidate.item.riskId == risk
      ensures About(outcomes, risk) == [outcomes[i]]
    {
      AboutOne(outcomes, i);
    }
    if AnyAbout(done.carried, risk) {
      var j :| 0 <= j < |done.carried| && done.carried[j].item.riskId == risk;
      assert done.carried[j] in RescheduledOf(outcomes);
    }
    if About(outcomes, risk) != [] {
      var i :| 0 <= i < |outcomes| && outcomes[i] == About(outcomes, risk)[0];
      if outcomes[i].kind.Deferred? {
        assert CarriedTo(outcomes[i].candidate, w + 1) in done.carried;
        var j :| 0 <= j < |done.carried| && done.carried[j] == CarriedTo(outcomes[i].candidate, w + 1);
      }
    }
  }

  /** Whoever is presented about the action's risk item is the action's own candidate, at its right age. */
  lemma PresentedForAction(cfg: RunSetup, actions: seq<Action>, contacts: seq<Contact>, cands: seq<Candidate>,
                           a: Action, w: Window)
    requires DistinctActions(actions) && a in actions
    requires forall c :: c in cands ==> Presentable(cfg, actions, contacts, c, w)
    ensures forall c :: c in cands && c.item.riskId == a.riskId ==> StemsFrom(cfg, a, c, w) && InWindow(c, w)
    ensures AnyAbout(cands, a.riskId) ==> Verified(cfg, a) && ArrivalWindow(a) <= w && !Observed(contacts, a.riskId)
  {
    forall c | c in cands && c.item.riskId == a.riskId ensures StemsFrom(cfg, a, c, w) && InWindow(c, w) {
      assert Presentable(cfg, actions, contacts, c, w);
      var b :| b in actions && StemsFrom(cfg, b, c, w);
      assert a == b;
    }
    if AnyAbout(cands, a.riskId) {
      var i :| 0 <= i < |cands| && cands[i].item.riskId == a.riskId;
      assert cands[i] in cands;
      assert Presentable(cfg, actions, contacts, cands[i], w);
    }
  }

  lemma AnyAboutConcat(a: seq<Candidate>, b: seq<Candidate>, risk: RiskId)
    ensures AnyAbout(a + b, risk) <==> AnyAbout(a, risk) || AnyAbout(b, risk)
  {
    if AnyAbout(a, risk) {
      var i :| 0 <= i < |a| && a[i].item.riskId == risk;
      assert (a + b)[i] == a[i];
    }
    if AnyAbout(b, risk) {
      var i :| 0 <= i < |b| && b[i].item.riskId == risk;
      assert (a + b)[|a| + i] == b[i];
    }
    if AnyAbout(a + b, risk) {
      var i :| 0 <= i < |a + b| && (a + b)[i].item.riskId == risk;
      assert i < |a| ==> a[i].item.riskId == risk;
      assert i >= |a| ==> b[i - |a|].item.riskId == risk;
    }
  }

  lemma ArrivedWhen(cfg: RunSetup, actions: seq<Action>, a: Action, w: Window)
    requires ValidSetup(cfg, actions) && a in actions
    ensures TakeIn(cfg, NewActions(actions, w)).Ok?
    ensures AnyAbout(TakeIn(cfg, NewActions(actions, w)).value.candidates, a.riskId)
            <==> ArrivalWindow(a) == w && Verified(cfg, a)
  {
    NewActionsAreDistinct(actions, w);
    var part := NewActions(actions, w);
    IntakeSucceeds(cfg, actions, part, w);
    var arrived := TakeIn(cfg, part).value.candidates;
    if ArrivalWindow(a) == w && Verified(cfg, a) {
      IntakeKeeps(cfg, part, a);
      var c :| c in arrived && c.request == ToGrantRequest(cfg, a);
      assert Fresh(cfg, part, c, w);
      var i :| 0 <= i < |arrived| && arrived[i] == c;
    }
    if AnyAbout(arrived, a.riskId) {
      var i :| 0 <= i < |arrived| && arrived[i].item.riskId == a.riskId;
      assert arrived[i] in arrived;
      assert Fresh(cfg, part, arrived[i], w);
      var b :| b in part && StemsFrom(cfg, b, arrived[i], w);
      assert a == b;
    }
  }

  lemma PresentedWhen(cfg: RunSetup, actions: seq<Action>, run: Run, a: Action, w: Window)
    requires ValidSetup(cfg, actions) && RunInv(cfg, actions, run, w) && a in actions
    ensures TakeIn(cfg, NewActions(actions, w)).Ok?
    ensures var cands := run.carried + TakeIn(cfg, NewActions(actions, w)).value.candidates;
            && (forall c :: c in cands ==> Presentable(cfg, actions, run.contacts, c, w))
            && (AnyAbout(cands, a.riskId)
                <==> AnyAbout(run.carried, a.riskId) || (ArrivalWindow(a) == w && Verified(cfg, a)))
  {
    PresentedTogether(cfg, actions, run, w);
    ArrivedWhen(cfg, actions, a, w);
    AnyAboutConcat(run.carried, TakeIn(cfg, NewActions(actions, w)).value.candidates, a.riskId);
  }

  lemma HistoryGrows(cfg: RunSetup, run: Run, done: Run, intake: Intake, outcomes: seq<Outcome>, risk: RiskId,
                     id: RequestId)
    requires done.decisions == run.decisions + intake.decisions + DecisionsOf(outcomes)
    requires Decisions(intake.decisions) == []
    ensures History(done, risk) == History(run, risk) + About(outcomes, risk)
    ensures ScopeDenials(done.decisions, id) == ScopeDenials(run.decisions, id) + ScopeDenials(intake.decisions, id)
  {
    DecisionsConcat(run.decisions, intake.decisions, id);
    DecisionsConcat(run.decisions + intake.decisions, DecisionsOf(outcomes), id);
    DecidedOutcomes(outcomes, id);
    assert Decisions(done.decisions) == Decisions(run.decisions) + outcomes;
    AboutConcat(Decisions(run.decisions), outcomes, risk);
  }

  lemma ArrivesWhen(actions: seq<Action>, a: Action, w: Window)
    requires DistinctActions(actions) && a in actions
    ensures a in NewActions(actions, w) <==> ArrivalWindow(a) == w
    ensures DistinctActions(NewActions(actions, w))
            && forall b :: b in NewActions(actions, w) && b.riskId == a.riskId ==> a == b
  {
    NewActionsAreDistinct(actions, w);
  }

  lemma OutcomeSubject(outcomes: seq<Outcome>, cands: seq<Candidate>, o: Outcome)
    requires multiset(Subjects(outcomes)) == multiset(cands) && o in outcomes
    ensures o.candidate in cands
  {
    SubjectsIndex(outcomes);
    var i :| 0 <= i < |outcomes| && outcomes[i] == o;
    assert Subjects(outcomes)[i] in multiset(Subjects(outcomes));
  }

  /** What a window leaves of an action's history, its candidate and its contact. */
  ghost predicate WindowLeaves(cfg: RunSetup, a: Action, run: Run, done: Run, about: seq<Outcome>, w: Window) {
    && History(done, a.riskId) == History(run, a.riskId) + about
    && ScopeDenials(done.decisions, ToGrantRequest(cfg, a).requestId)
       == ScopeDenials(run.decisions, ToGrantRequest(cfg, a).requestId) + (if ArrivalWindow(a) == w && !Verified(cfg, a)
             then 1 else 0)
    && (AnyAbout(done.carried, a.riskId) <==> about != [] && about[0].kind.Deferred?)
    && (Observed(done.contacts, a.riskId)
        <==> Observed(run.contacts, a.riskId) || (about != [] && about[0].kind.Granted?))
  }

  lemma AccountGrows(cfg: RunSetup, a: Action, run: Run, done: Run, o: Outcome, w: Window)
    requires AccountOf(cfg, a, run, w)
             && (AnyAbout(run.carried, a.riskId) || (ArrivalWindow(a) == w && Verified(cfg, a)))
    requires WindowLeaves(cfg, a, run, done, [o], w)
    requires Shaped(o, w) && StemsFrom(cfg, a, o.candidate, w) && InWindow(o.candidate, w)
             && o.candidate.windowsDeferred < MAX_DEFERRAL_WINDOWS
    ensures AccountOf(cfg, a, done, w + 1)
  {
    StandingGrows(a, History(run, a.riskId), o, run, done, w);
  }

  /** Nothing happens to an action that was not presented: it has not arrived, or its last word is spoken. */
  lemma AccountUndisturbed(cfg: RunSetup, a: Action, run: Run, done: Run, w: Window)
    requires AccountOf(cfg, a, run, w) && !AnyAbout(run.carried, a.riskId)
             && !(ArrivalWindow(a) == w && Verified(cfg, a))
    requires WindowLeaves(cfg, a, run, done, [], w)
    ensures AccountOf(cfg, a, done, w + 1)
  {
  }

  /** A window either speaks of an action in one outcome or does not speak of it. */
  ghost predicate SpokenOf(cfg: RunSetup, a: Action, about: seq<Outcome>, w: Window) {
    about != [] ==>
      && about == [about[0]] && Shaped(about[0], w) && StemsFrom(cfg, a, about[0].candidate, w)
      && InWindow(about[0].candidate, w) && about[0].candidate.windowsDeferred < MAX_DEFERRAL_WINDOWS
  }

  lemma OutcomeStems(cfg: RunSetup, a: Action, outcomes: seq<Outcome>, cands: seq<Candidate>, w: Window)
    requires UniqueRisks(cands) && multiset(Subjects(outcomes)) == multiset(cands)
             && forall o :: o in outcomes ==> Shaped(o, w)
    requires forall c :: c in cands && c.item.riskId == a.riskId ==>
               StemsFrom(cfg, a, c, w) && InWindow(c, w) && c.windowsDeferred < MAX_DEFERRAL_WINDOWS
    ensures SpokenOf(cfg, a, About(outcomes, a.riskId), w)
    ensures About(outcomes, a.riskId) != [] <==> AnyAbout(cands, a.riskId)
  {
    var about := About(outcomes, a.riskId);
    OutcomeOfAction(outcomes, cands, a.riskId);
    hide Shaped, StemsFrom, About, Subjects, UniqueRisks, InWindow;
    if AnyAbout(cands, a.riskId) {
      assert about == [about[0]];
      OutcomeSubject(outcomes, cands, about[0]);
    }
  }

  /** The account of an action is kept through a window, from the facts the window leaves. */
  lemma AccountKept(cfg: RunSetup, a: Action, run: Run, done: Run, about: seq<Outcome>, w: Window)
    requires AccountOf(cfg, a, run, w) && SpokenOf(cfg, a, about, w) && WindowLeaves(cfg, a, run, done, about, w)
    requires about != [] <==> AnyAbout(run.carried, a.riskId) || (ArrivalWindow(a) == w && Verified(cfg, a))
    ensures AccountOf(cfg, a, done, w + 1)
  {
    hide AccountOf, Shaped, StemsFrom, WindowLeaves;
    if about != [] {
      AccountGrows(cfg, a, run, done, about[0], w);
    } else {
      AccountUndisturbed(cfg, a, run, done, w);
    }
  }

  lemma StandingGrows(a: Action, h: seq<Outcome>, o: Outcome, run: Run, done: Run, w: Window)
    requires if h == [] then ArrivalWindow(a) == w && !Observed(run.contacts, a.riskId)
             else Standing(a, h, run, w) && h[|h| - 1].kind.Deferred?
    requires Shaped(o, w) && o.candidate.item.riskId == a.riskId && o.candidate.customerId == a.customerId
    requires o.candidate.windowsDeferred == w - ArrivalWindow(a) < MAX_DEFERRAL_WINDOWS
    requires AnyAbout(done.carried, a.riskId) <==> o.kind.Deferred?
    requires Observed(done.contacts, a.riskId) <==> Observed(run.contacts, a.riskId) || o.kind.Granted?
    ensures Standing(a, h + [o], done, w + 1)
  {
  }

  lemma WindowLeavesItsMark(cfg: RunSetup, actions: seq<Action>, run: Run, done: Run, a: Action, intake: Intake,
                            outcomes: seq<Outcome>, cands: seq<Candidate>, w: Window)
    requires ValidSetup(cfg, actions) && a in actions && TakeIn(cfg, NewActions(actions, w)) == Ok(intake)
    requires Worked(cfg, actions, run, done, outcomes, cands, w)
    requires done.decisions == run.decisions + intake.decisions + DecisionsOf(outcomes)
    ensures WindowLeaves(cfg, a, run, done, About(outcomes, a.riskId), w)
  {
    ArrivesWhen(actions, a, w);
    IntakeDenies(cfg, NewActions(actions, w), a);
    HistoryGrows(cfg, run, done, intake, outcomes, a.riskId, ToGrantRequest(cfg, a).requestId);
    AfterOutcome(run, done, outcomes, cands, a.riskId, w);
  }

  lemma WindowKeepsAccount(cfg: RunSetup, oracle: Oracle, actions: seq<Action>, run: Run, a: Action, w: Window)
    requires ValidSetup(cfg, actions) && RunInv(cfg, actions, run, w) && a in actions && AccountOf(cfg, a, run, w)
    ensures RunWindow(cfg, oracle, run, w, actions).Ok?
    ensures AccountOf(cfg, a, RunWindow(cfg, oracle, run, w, actions).value, w + 1)
  {
    WindowKeepsInvariant(cfg, oracle, actions, run, w);
    PresentedWhen(cfg, actions, run, a, w);
    var intake, done := TakeIn(cfg, NewActions(actions, w)).value, RunWindow(cfg, oracle, run, w, actions).value;
    var cands, outcomes := run.carried + intake.candidates, MediateWindow(cfg, run, w, intake).0;
    hide RunWindow, MediateWindow, TakeIn, AccountOf, WindowLeaves;
    PresentedForAction(cfg, actions, run.contacts, cands, a, w);
    WindowLeavesItsMark(cfg, actions, run, done, a, intake, outcomes, cands, w);
    OutcomeStems(cfg, a, outcomes, cands, w);
    AccountKept(cfg, a, run, done, About(outcomes, a.riskId), w);
  }

  lemma {:induction false} WindowsKeepAccount(cfg: RunSetup, oracle: Oracle, actions: seq<Action>, run: Run, a: Action,
                                              w: Window, end: Window)
    requires ValidSetup(cfg, actions) && RunInv(cfg, actions, run, w) && a in actions && AccountOf(cfg, a, run, w)
             && w <= end
    ensures RunWindows(cfg, oracle, run, w, end, actions).Ok?
    ensures AccountOf(cfg, a, RunWindows(cfg, oracle, run, w, end, actions).value, end)
    decreases end - w
  {
    if w < end {
      WindowKeepsInvariant(cfg, oracle, actions, run, w);
      WindowKeepsAccount(cfg, oracle, actions, run, a, w);
      WindowsKeepAccount(cfg, oracle, actions, RunWindow(cfg, oracle, run, w, actions).value, a, w + 1, end);
    }
  }

  /** What has become of an action in a finished run. */
  ghost predicate AccountedFor(cfg: RunSetup, run: Run, a: Action) {
    var h := History(run, a.riskId);
    && ScopeDenials(run.decisions, ToGrantRequest(cfg, a).requestId) == (if Verified(cfg, a) then 0 else 1)
    && if Verified(cfg, a)
       then OrderlyLife(a, h) && !h[|h| - 1].kind.Deferred?
         && (h[|h| - 1].kind.Granted? <==> Observed(run.contacts, a.riskId))
       else h == [] && !Observed(run.contacts, a.riskId)
  }

  lemma AccountCloses(cfg: RunSetup, a: Action, run: Run, w: Window)
    requires AccountOf(cfg, a, run, w) && ArrivalWindow(a) < w && run.carried == []
    ensures AccountedFor(cfg, run, a)
  {
  }

  lemma LoopKeepsAccount(cfg: RunSetup, oracle: Oracle, actions: seq<Action>, a: Action) returns (run: Run)
    requires ValidSetup(cfg, actions) && a in actions
    ensures RunLoop(cfg, oracle, actions) == Ok(run)
    ensures RunInv(cfg, actions, run, LastWindow(actions) + 1) && AccountOf(cfg, a, run, LastWindow(actions) + 1)
  {
    var first, end := FirstWindow(actions), LastWindow(actions) + 1;
    ArrivalBounds(actions);
    InitialRun(cfg, actions, first);
    WindowsKeepInvariant(cfg, oracle, actions, Initial(), first, end);
    WindowsKeepAccount(cfg, oracle, actions, Initial(), a, first, end);
    run := RunLoop(cfg, oracle, actions).value;
  }

  /**
   * When the loop ends nothing is left over: each verified action has had at most six deferrals, one
   * a day from its arrival, and then exactly one grant or denial, and it was contacted exactly if it
   * was granted; each unverified action has had its one scope denial and nothing else.
   */
  lemma EveryActionIsAccountedFor(cfg: RunSetup, oracle: Oracle, actions: seq<Action>, a: Action)
    requires ValidSetup(cfg, actions) && a in actions
    ensures RunLoop(cfg, oracle, actions).Ok?
    ensures var run := RunLoop(cfg, oracle, actions).value;
            run.carried == [] && DistinctContacts(run.contacts) && AccountedFor(cfg, run, a)
  {
    var run := LoopKeepsAccount(cfg, oracle, actions, a);
    ArrivalBounds(actions);
    NothingIsCarriedPast(cfg, actions, run, LastWindow(actions) + 1);
    AccountCloses(cfg, a, run, LastWindow(actions) + 1);
  }

  lemma PresentableAge(cfg: RunSetup, actions: seq<Action>, contacts: seq<Contact>, c: Candidate, w: Window)
    requires actions != [] && Presentable(cfg, actions, contacts, c, w)
    ensures w - LastArrival(actions) <= c.windowsDeferred
  {
    ArrivalBounds(actions);
  }

  /** Seven days after the last arrival every deferral has run out. */
  lemma NothingIsCarriedPast(cfg: RunSetup, actions: seq<Action>, run: Run, w: Window)
    requires actions != [] && RunInv(cfg, actions, run, w) && w >= LastArrival(actions) + MAX_DEFERRAL_WINDOWS
    ensures run.carried == []
  {
    if run.carried != [] {
      PresentableAge(cfg, actions, run.contacts, run.carried[0], w);
    }
  }

  /** Whoever is contacted is contacted about an item of their own that one of the actions was for. */
  lemma ContactedAboutOwnItem(cfg: RunSetup, oracle: Oracle, actions: seq<Action>, k: Contact)
    requires ValidSetup(cfg, actions) && RunLoop(cfg, oracle, actions).Ok?
             && k in RunLoop(cfg, oracle, actions).value.contacts
    ensures k.riskId in cfg.registry.riskItems && cfg.registry.riskItems[k.riskId].1 == k.customerId
    ensures exists a :: a in actions && a.customerId == k.customerId
  {
    var run := RunLoop(cfg, oracle, actions).value;
    RunsEndInInvariant(cfg, oracle, actions);
    var w := if actions == [] then 0 else LastWindow(actions) + 1;
    assert ActedOn(actions, k, w);
    var a :| a in actions && a.riskId == k.riskId && a.customerId == k.customerId;
    EveryActionIsAccountedFor(cfg, oracle, actions, a);
    hide RunLoop, RunInv;
    var i :| 0 <= i < |run.contacts| && run.contacts[i] == k;
    assert Observed(run.contacts, a.riskId);
    assert Verified(cfg, a);
  }

  /** A finished run has contacted no item twice. */
  lemma ContactsAreDistinct(cfg: RunSetup, oracle: Oracle, actions: seq<Action>)
    requires ValidSetup(cfg, actions)
    ensures RunLoop(cfg, oracle, actions).Ok? && DistinctContacts(RunLoop(cfg, oracle, actions).value.contacts)
  {
    RunsEndInInvariant(cfg, oracle, actions);
    hide RunLoop;
  }
}
