/**
 * Mediating a window accounts for every candidate exactly once, and only candidates that the hard
 * rules let through can be granted.
 */
module MediationOutcomes {
  import opened Allocator
  import opened AllocatorProperties
  import opened Clock
  import opened Contracts
  import opened HardFilter
  import opened Ledger
  import opened Sorting
  import opened Wrappers

  /** No two candidates are about the same risk item, and none is presented twice. */
  ghost predicate UniqueRisks(cands: seq<Candidate>) {
    && (forall c :: multiset(cands)[c] <= 1)
    && (forall a, b :: a in cands && b in cands && a.item.riskId == b.item.riskId ==> a == b)
  }

  /** The hard rules that do not depend on the ledger. */
  ghost predicate Contactable(world: World, optOuts: OptOuts, c: Candidate) {
    && !HasOptedOut(optOuts, c)
    && TemplateRegistered(c.request.intent, c.request.channel)
    && !(c.request.maxIncentiveBps > 0 && DisputeOpen(world, c.customerId))
    && !IsQuietHours(c.sendAfter)
  }

  lemma {:induction false} SubjectsConcat(a: seq<Outcome>, b: seq<Outcome>)
    ensures Subjects(a + b) == Subjects(a) + Subjects(b)
  {
    if b == [] {
      assert a + b == a;
    } else {
      var n := |b| - 1;
      assert a + b == (a + b[..n]) + [b[n]];
      SubjectsAppend(a + b[..n], b[n]);
      SubjectsConcat(a, b[..n]);
    }
  }

  lemma {:induction false} SubjectsIndex(outcomes: seq<Outcome>)
    ensures |Subjects(outcomes)| == |outcomes|
    ensures forall i :: 0 <= i < |outcomes| ==> Subjects(outcomes)[i] == outcomes[i].candidate
  {
    if outcomes != [] {
      SubjectsIndex(outcomes[..|outcomes| - 1]);
    }
  }

  lemma {:induction false} InOrderCovers(cands: seq<Candidate>, customers: seq<CustomerId>)
    ensures multiset(InOrder(cands, customers)) == OfAll(cands, customers)
  {
    if customers != [] {
      InOrderCovers(cands, customers[1..]);
      CandidatesOfFacts(cands, customers[0]);
    }
  }

  ghost predicate NoneGranted(outcomes: seq<Outcome>) {
    forall o :: o in outcomes ==> !o.kind.Granted?
  }

  ghost predicate FiltersWell(world: World, optOuts: OptOuts, f: Filtered) {
    NoneGranted(f.outcomes) && forall c :: c in f.survivors ==> Contactable(world, optOuts, c)
  }

  ghost function Accounted(f: Filtered): multiset<Candidate> {
    multiset(Subjects(f.outcomes)) + multiset(f.survivors)
  }

  lemma AdmissibleIsContactable(world: World, optOuts: OptOuts, t: Tables, c: Candidate, at: Instant)
    requires EvaluateAll(world, optOuts, t, c, at).Admissible?
    ensures Contactable(world, optOuts, c)
  {
  }

  lemma AccountAppend(f: Filtered, t: Tables, o: Outcome)
    ensures Accounted(Filtered(t, f.survivors, f.outcomes + [o])) == Accounted(f) + multiset{o.candidate}
  {
    SubjectsAppend(f.outcomes, o);
  }

  lemma FilterOneAccounts(world: World, optOuts: OptOuts, at: Instant, f: Filtered, c: Candidate)
    requires FiltersWell(world, optOuts, f)
    ensures var r := FilterOne(world, optOuts, at, f, c);
            FiltersWell(world, optOuts, r) && Accounted(r) == Accounted(f) + multiset{c}
  {
    var v := EvaluateAll(world, optOuts, f.tables, c, at);
    if v.Admissible? {
      AdmissibleIsContactable(world, optOuts, f.tables, c, at);
      assert multiset(f.survivors + [c]) == multiset(f.survivors) + multiset{c};
    } else if v.Deny? {
      AccountAppend(f, MarkDenied(f.tables, c.item.riskId), DenialOf(c, v.reason, None));
    } else {
      AccountAppend(f, AfterDeferral(f.tables, c), DeferredOrDenied(c, v.reason, v.nextEligibleAt, None));
    }
  }

  lemma {:induction false} FilterAllAccounts(world: World, optOuts: OptOuts, at: Instant, f: Filtered,
                                             cands: seq<Candidate>)
    requires FiltersWell(world, optOuts, f)
    ensures var r := FilterAll(world, optOuts, at, f, cands);
            FiltersWell(world, optOuts, r) && Accounted(r) == Accounted(f) + multiset(cands)
    decreases |cands|
  {
    if cands != [] {
      assert cands == [cands[0]] + cands[1..];
      FilterOneAccounts(world, optOuts, at, f, cands[0]);
      FilterAllAccounts(world, optOuts, at, FilterOne(world, optOuts, at, f, cands[0]), cands[1..]);
    }
  }

  lemma FilterAccounts(world: World, optOuts: OptOuts, at: Instant, t: Tables, cands: seq<Candidate>)
    ensures var f := FilterCandidates(world, optOuts, at, t, cands);
            FiltersWell(world, optOuts, f) && Accounted(f) == multiset(cands)
  {
    InOrderCovers(cands, Customers(cands));
    PartitionCovers(cands);
    FilterAllAccounts(world, optOuts, at, Filtered(t, [], []), InOrder(cands, Customers(cands)));
  }

  lemma SubsetOfUnique(part: seq<Candidate>, rest: multiset<Candidate>, cands: seq<Candidate>)
    requires UniqueRisks(cands) && rest + multiset(part) == multiset(cands)
    ensures UniqueRisks(part) && DistinctRisks(part)
    ensures forall c :: c in part ==> c in cands
  {
    forall c ensures multiset(part)[c] <= 1 && (c in part ==> c in cands) {
      assert multiset(part)[c] <= multiset(cands)[c];
      assert c in part ==> c in multiset(part);
      assert c in multiset(cands) ==> c in cands;
    }
  }

  lemma GrantedAreContactable(world: World, optOuts: OptOuts, early: seq<Outcome>, late: seq<Outcome>,
                              survivors: seq<Candidate>)
    requires forall o :: o in early ==> !o.kind.Granted?
    requires multiset(Subjects(late)) == multiset(survivors)
    requires forall c :: c in survivors ==> Contactable(world, optOuts, c)
    ensures forall o :: o in early + late && o.kind.Granted? ==> Contactable(world, optOuts, o.candidate)
  {
    SubjectsIndex(late);
    SameMembers(Subjects(late), survivors);
    forall o | o in early + late && o.kind.Granted? ensures Contactable(world, optOuts, o.candidate) {
      assert o in late;
      var i :| 0 <= i < |late| && late[i] == o;
      assert Subjects(late)[i] in Subjects(late);
    }
  }

  /** Every candidate mediated gets exactly one outcome, and a granted one had passed the hard rules. */
  lemma MediationAccounts(s: Setup, optOuts: OptOuts, at: Instant, t: Tables, cands: seq<Candidate>)
    requires UniqueRisks(cands)
    ensures var outcomes := FilterAndAllocate(s, optOuts, at, t, cands).0;
            && multiset(Subjects(outcomes)) == multiset(cands)
            && (forall o :: o in outcomes && o.kind.Granted? ==> Contactable(s.world, optOuts, o.candidate))
  {
    FilterAccounts(s.world, optOuts, at, t, cands);
    var f := FilterCandidates(s.world, optOuts, at, t, cands);
    SubsetOfUnique(f.survivors, multiset(Subjects(f.outcomes)), cands);
    EachCandidateOneOutcome(s, at, f.tables, f.survivors);
    var outcomes := AllocateWindow(s, at, f.tables, f.survivors).0;
    SubjectsConcat(f.outcomes, outcomes);
    GrantedAreContactable(s.world, optOuts, f.outcomes, outcomes, f.survivors);
  }

  lemma {:induction false} AdmissiblesPass(world: World, optOuts: OptOuts, at: Instant, f: Filtered,
                                           cands: seq<Candidate>)
    requires forall c :: c in cands ==> EvaluateAll(world, optOuts, f.tables, c, at).Admissible?
    ensures FilterAll(world, optOuts, at, f, cands) == f.(survivors := f.survivors + cands)
    decreases |cands|
  {
    hide EvaluateAll;
    if cands == [] {
      assert f.survivors + cands == f.survivors;
    } else {
      assert cands[0] in cands && forall c :: c in cands[1..] ==> c in cands;
      AdmissiblesPass(world, optOuts, at, FilterOne(world, optOuts, at, f, cands[0]), cands[1..]);
      assert (f.survivors + [cands[0]]) + cands[1..] == f.survivors + cands;
    }
  }

  /** Where no rule objects to anybody, mediation is allocation. */
  lemma AllocationAlone(s: Setup, optOuts: OptOuts, at: Instant, t: Tables, cands: seq<Candidate>)
    requires DistinctRisks(cands)
    requires forall c :: c in cands ==> EvaluateAll(s.world, optOuts, t, c, at).Admissible?
    ensures FilterAndAllocate(s, optOuts, at, t, cands) == AllocateWindow(s, at, t, cands)
  {
    var visited := InOrder(cands, Customers(cands));
    InOrderCovers(cands, Customers(cands));
    PartitionCovers(cands);
    hide EvaluateAll, AllocateWindow, InOrder, Customers;
    SameMembers(cands, visited);
    AdmissiblesPass(s.world, optOuts, at, Filtered(t, [], []), visited);
    assert [] + visited == visited;
    PresentationOrderIsIrrelevant(s, at, t, cands, visited);
    assert [] + AllocateWindow(s, at, t, cands).0 == AllocateWindow(s, at, t, cands).0;
  }
}
