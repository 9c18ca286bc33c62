/**
 * The invariant of a whole mediated run, one window after another: the ledger stays conserved and
 * solvent, every grant issued has become exactly one contact, and every candidate carried forward
 * stems from one action, has aged one step per window, and has never been contacted.
 */
module RunInvariant {
  import opened Allocator
  import opened AllocatorProperties
  import opened Clock
  import opened Contracts
  import opened LedgerInvariants
  import opened Margin
  import opened MediationOutcomes
  import opened Noninterference
  import opened Registry
  import opened RunExecution
  import opened Sorting
  import opened WindowEffects
  import opened WindowLoop

  // ---- What a run is set up with ----

  /** Each risk item is pursued by one action: the agents partition the items by source. */
  ghost predicate DistinctActions(actions: seq<Action>) {
    && (forall a :: multiset(actions)[a] <= 1)
    && (forall a, b :: a in actions && b in actions && a.riskId == b.riskId ==> a == b)
  }

  ghost predicate InjectiveIds(cfg: RunSetup) {
    forall a, r, a', r' :: cfg.requestIdFor(a, r) == cfg.requestIdFor(a', r') ==> a == a' && r == r'
  }

  ghost predicate ValidSetup(cfg: RunSetup, actions: seq<Action>) {
    && InjectiveIds(cfg) && DistinctActions(actions) && FundedWorld(cfg.setup.world)
    && (forall id :: id in cfg.registry.agents ==> cfg.registry.agents[id].scope.maxIncentiveBps < BPS)
    && (forall r :: r in cfg.registry.riskItems ==> cfg.registry.riskItems[r].0.riskId == r)
  }

  predicate Verified(cfg: RunSetup, a: Action) {
    EvaluateScope(cfg.registry, ToGrantRequest(cfg, a)).None?
  }

  // ---- Candidates ----

  ghost predicate StemsFrom(cfg: RunSetup, a: Action, c: Candidate, w: Window) {
    && Verified(cfg, a)
    && c.request == ToGrantRequest(cfg, a) && c.item.riskId == a.riskId && c.customerId == a.customerId
    && c.windowsDeferred == w - ArrivalWindow(a)
  }

  ghost predicate Stems(cfg: RunSetup, actions: seq<Action>, c: Candidate, w: Window) {
    exists a :: a in actions && StemsFrom(cfg, a, c, w)
  }

  ghost predicate Presentable(cfg: RunSetup, actions: seq<Action>, contacts: seq<Contact>, c: Candidate, w: Window) {
    && Identified(cfg, c) && InWindow(c, w) && Stems(cfg, actions, c, w)
    && c.windowsDeferred < MAX_DEFERRAL_WINDOWS && !Observed(contacts, c.item.riskId)
  }

  lemma UniqueConcat(a: seq<Candidate>, b: seq<Candidate>)
    requires UniqueRisks(a) && UniqueRisks(b)
    requires forall x, y :: x in a && y in b ==> x.item.riskId != y.item.riskId
    ensures UniqueRisks(a + b)
  {
    forall c ensures multiset(a + b)[c] <= 1 {
      assert multiset(a + b)[c] == multiset(a)[c] + multiset(b)[c];
      assert c in multiset(a) <==> c in a;
      assert c in multiset(b) <==> c in b;
    }
  }

  lemma UniqueIndices(cands: seq<Candidate>, i: nat, j: nat)
    requires UniqueRisks(cands) && i < j < |cands|
    ensures cands[i].item.riskId != cands[j].item.riskId
  {
    if cands[i] == cands[j] {
      OccursTwice(cands, i, j);
    } else {
      assert cands[i] in cands && cands[j] in cands;
    }
  }

  lemma UniqueSubjects(outcomes: seq<Outcome>, cands: seq<Candidate>)
    requires UniqueRisks(cands) && multiset(Subjects(outcomes)) == multiset(cands)
    ensures DistinctSubjects(outcomes)
    ensures forall o :: o in outcomes ==> o.candidate in cands
  {
    SubjectsIndex(outcomes);
    SameMembers(Subjects(outcomes), cands);
    assert UniqueRisks(Subjects(outcomes));
    forall i, j | 0 <= i < j < |outcomes|
      ensures outcomes[i].candidate.item.riskId != outcomes[j].candidate.item.riskId
    {
      UniqueIndices(Subjects(outcomes), i, j);
    }
    forall o | o in outcomes ensures o.candidate in cands {
      var i :| 0 <= i < |outcomes| && outcomes[i] == o;
      assert Subjects(outcomes)[i] in Subjects(outcomes);
    }
  }

  // ---- New requests ----

  lemma DistinctActionIndices(actions: seq<Action>, i: nat, j: nat)
    requires DistinctActions(actions) && i < j < |actions|
    ensures actions[i].riskId != actions[j].riskId
  {
    if actions[i] == actions[j] {
      OccursTwice(actions, i, j);
    } else {
      assert actions[i] in actions && actions[j] in actions;
    }
  }

  lemma NewActionsAreDistinct(actions: seq<Action>, w: Window)
    requires DistinctActions(actions)
    ensures DistinctActions(NewActions(actions, w))
    ensures forall a :: a in NewActions(actions, w) <==> a in actions && ArrivalWindow(a) == w
  {
    ArrivingMembers(actions, w);
    SameMembers(ArrivingIn(actions, w), NewActions(actions, w));
  }

  /** A candidate of the first presentation, from one of `actions`. */
  ghost predicate Fresh(cfg: RunSetup, actions: seq<Action>, c: Candidate, w: Window) {
    Identified(cfg, c) && InWindow(c, w) && Stems(cfg, actions, c, w) && c.windowsDeferred == 0
  }

  lemma VerifiedBuilds(cfg: RunSetup, actions: seq<Action>, a: Action)
    requires ValidSetup(cfg, actions) && Verified(cfg, a)
    ensures var request := ToGrantRequest(cfg, a);
            && request.riskId in cfg.registry.riskItems
            && var record := cfg.registry.riskItems[request.riskId];
            && var c := BuildCandidate(request, record.0, record.1, AdjustedArrival(a));
            && c.Ok? && Identified(cfg, c.value) && InWindow(c.value, ArrivalWindow(a))
            && StemsFrom(cfg, a, c.value, ArrivalWindow(a)) && c.value.windowsDeferred == 0
  {
    ArrivesInWindow(a);
  }

  lemma {:induction false} IntakeSucceeds(cfg: RunSetup, actions: seq<Action>, part: seq<Action>, w: Window)
    requires ValidSetup(cfg, actions) && DistinctActions(part)
    requires forall a :: a in part ==> a in actions && ArrivalWindow(a) == w
    ensures TakeIn(cfg, part).Ok?
    ensures var cands := TakeIn(cfg, part).value.candidates;
            && UniqueRisks(cands)
            && (forall c :: c in cands ==> Fresh(cfg, part, c, w))
  {
    if part != [] {
      var n := |part| - 1;
      PrefixIsDistinct(part, n);
      IntakeSucceeds(cfg, actions, part[..n], w);
      var earlier := TakeIn(cfg, part[..n]).value;
      forall c | c in earlier.candidates ensures Fresh(cfg, part, c, w) && c.item.riskId != part[n].riskId {
        var a :| a in part[..n] && StemsFrom(cfg, a, c, w);
        var i :| 0 <= i < n && part[i] == a;
        DistinctActionIndices(part, i, n);
      }
      assert part[n] in part;
      if Verified(cfg, part[n]) {
        VerifiedBuilds(cfg, actions, part[n]);
        var c := TakeIn(cfg, part).value.candidates[|earlier.candidates|];
        UniqueConcat(earlier.candidates, [c]);
      }
    }
  }

  lemma PrefixIsDistinct(part: seq<Action>, n: nat)
    requires DistinctActions(part) && n <= |part|
    ensures DistinctActions(part[..n])
  {
    assert part == part[..n] + part[n..];
    forall a ensures multiset(part[..n])[a] <= 1 {
      assert multiset(part)[a] == multiset(part[..n])[a] + multiset(part[n..])[a];
    }
  }
}
