/**
 * What one window's allocation guarantees: every candidate gets exactly one outcome, a customer at
 * most one grant, and the order in which candidates are presented does not matter.
 */
module AllocatorProperties {
  import opened Allocator
  import opened Clock
  import opened Contracts
  import opened Ledger
  import opened Sorting
  import opened Wrappers

  // ---- Hypotheses on the candidates presented together ----

  /** No candidate is presented twice, and no two of a customer's are about the same risk item. */
  ghost predicate DistinctRisks(cands: seq<Candidate>) {
    && (forall c :: multiset(cands)[c] <= 1)
    && (forall a, b :: a in cands && b in cands && a.customerId == b.customerId && a.item.riskId == b.item.riskId ==>
          a == b)
  }

  ghost predicate DistinctScoredRisks(scored: seq<Scored>) {
    forall i, j :: 0 <= i < j < |scored| ==> scored[i].1.item.riskId != scored[j].1.item.riskId
  }

  // ---- Projections ----

  ghost function Subjects(outcomes: seq<Outcome>): seq<Candidate> {
    if outcomes == [] then [] else Subjects(outcomes[..|outcomes| - 1]) + [outcomes[|outcomes| - 1].candidate]
  }

  ghost function Bare(scored: seq<Scored>): seq<Candidate> {
    if scored == [] then [] else [scored[0].1] + Bare(scored[1..])
  }

  lemma SubjectsAppend(outcomes: seq<Outcome>, o: Outcome)
    ensures Subjects(outcomes + [o]) == Subjects(outcomes) + [o.candidate]
  {
    assert (outcomes + [o])[..|outcomes|] == outcomes;
  }

  lemma {:induction false} BareAppend(scored: seq<Scored>, x: Scored)
    ensures Bare(scored + [x]) == Bare(scored) + [x.1]
  {
    if scored != [] {
      assert (scored + [x])[1..] == scored[1..] + [x];
      BareAppend(scored[1..], x);
    }
  }

  lemma {:induction false} BareOfInsert(x: Scored, s: seq<Scored>, le: (Scored, Scored) -> bool)
    ensures multiset(Bare(Insert(x, s, le))) == multiset{x.1} + multiset(Bare(s))
  {
    if s == [] || le(x, s[0]) {
      assert ([x] + s)[1..] == s;
    } else {
      BareOfInsert(x, s[1..], le);
      assert Insert(x, s, le)[1..] == Insert(x, s[1..], le);
    }
  }

  lemma {:induction false} BareOfSort(s: seq<Scored>, le: (Scored, Scored) -> bool)
    ensures multiset(Bare(Sort(s, le))) == multiset(Bare(s))
  {
    if s != [] {
      BareOfSort(s[1..], le);
      BareOfInsert(s[0], Sort(s[1..], le), le);
    }
  }

  lemma {:induction false} BareMember(s: seq<Scored>, c: Candidate) returns (i: nat)
    requires c in Bare(s)
    ensures i < |s| && s[i].1 == c
  {
    if s[0].1 == c {
      i := 0;
    } else {
      var k := BareMember(s[1..], c);
      i := k + 1;
    }
  }

  lemma {:induction false} BareIndex(s: seq<Scored>)
    ensures |Bare(s)| == |s| && forall i :: 0 <= i < |s| ==> Bare(s)[i] == s[i].1
  {
    if s != [] {
      BareIndex(s[1..]);
    }
  }

  // ---- Partition by customer ----

  ghost predicate StrictlyIncreasing(keys: seq<int>) {
    forall i, j :: 0 <= i < j < |keys| ==> keys[i] < keys[j]
  }

  lemma {:induction false} InsertKeyFacts(k: int, keys: seq<int>)
    requires StrictlyIncreasing(keys)
    ensures StrictlyIncreasing(InsertKey(k, keys))
    ensures forall x :: x in InsertKey(k, keys) <==> x == k || x in keys
  {
    if keys != [] && k > keys[0] {
      InsertKeyFacts(k, keys[1..]);
      var rest := InsertKey(k, keys[1..]);
      assert forall x :: x in rest ==> keys[0] < x;
    }
  }

  lemma {:induction false} CustomersFacts(cands: seq<Candidate>)
    ensures StrictlyIncreasing(Customers(cands))
    ensures forall x :: x in Customers(cands) <==> exists c :: c in cands && c.customerId == x
  {
    if cands != [] {
      CustomersFacts(cands[1..]);
      InsertKeyFacts(cands[0].customerId, Customers(cands[1..]));
      assert cands == [cands[0]] + cands[1..];
      forall x ensures x in Customers(cands) <==> exists c :: c in cands && c.customerId == x {
        if exists c :: c in cands && c.customerId == x {
          var c :| c in cands && c.customerId == x;
          assert c == cands[0] || c in cands[1..];
        }
      }
    }
  }

  lemma {:induction false} IncreasingIsDetermined(a: seq<int>, b: seq<int>)
    requires StrictlyIncreasing(a) && StrictlyIncreasing(b) && forall x :: x in a <==> x in b
    ensures a == b
  {
    if b != [] {
      assert b[0] in b;
    }
    if a != [] {
      assert a[0] in a;
      assert a[0] in b && b[0] in a;
      assert a[0] == b[0];
      forall x ensures x in a[1..] <==> x in b[1..] {
        assert x in a[1..] <==> x in a && x != a[0];
        assert x in b[1..] <==> x in b && x != b[0];
      }
      IncreasingIsDetermined(a[1..], b[1..]);
    }
  }

  lemma {:induction false} OfMembers(cands: seq<Candidate>, customer: CustomerId)
    ensures forall c :: c in Of(cands, customer) <==> c in cands && c.customerId == customer
    ensures forall c :: multiset(Of(cands, customer))[c] == if c.customerId == customer then multiset(cands)[c] else 0
  {
    if cands != [] {
      OfMembers(cands[1..], customer);
      assert cands == [cands[0]] + cands[1..];
    }
  }

  /** The candidates of the listed customers. */
  ghost function OfAll(cands: seq<Candidate>, customers: seq<CustomerId>): multiset<Candidate> {
    if customers == [] then multiset{} else multiset(Of(cands, customers[0])) + OfAll(cands, customers[1..])
  }

  lemma {:induction false} OfAllCounts(cands: seq<Candidate>, customers: seq<CustomerId>)
    requires StrictlyIncreasing(customers)
    ensures forall c :: OfAll(cands, customers)[c] == if c.customerId in customers then multiset(cands)[c] else 0
  {
    if customers != [] {
      OfAllCounts(cands, customers[1..]);
      OfMembers(cands, customers[0]);
      assert customers == [customers[0]] + customers[1..];
      assert customers[0] !in customers[1..];
    }
  }

  lemma PartitionCovers(cands: seq<Candidate>)
    ensures OfAll(cands, Customers(cands)) == multiset(cands)
  {
    CustomersFacts(cands);
    OfAllCounts(cands, Customers(cands));
    forall c ensures OfAll(cands, Customers(cands))[c] == multiset(cands)[c] {
      if c.customerId !in Customers(cands) {
        assert c !in cands;
        assert c in multiset(cands) <==> c in cands;
      }
    }
  }

  lemma OfKeepsDistinct(cands: seq<Candidate>, customer: CustomerId)
    requires DistinctRisks(cands)
    ensures NoTies(Of(cands, customer), RiskLe)
    ensures DistinctRisks(Of(cands, customer))
  {
    OfMembers(cands, customer);
  }

  lemma CandidatesOfFacts(cands: seq<Candidate>, customer: CustomerId)
    ensures multiset(CandidatesOf(cands, customer)) == multiset(Of(cands, customer))
    ensures forall c :: c in CandidatesOf(cands, customer) ==> c in cands && c.customerId == customer
  {
    OfMembers(cands, customer);
    SameMembers(CandidatesOf(cands, customer), Of(cands, customer));
  }

  lemma RiskLeIsTotal()
    ensures TotalPreorder(RiskLe)
  {
  }

  lemma RankOrderIsTotal(s: Setup)
    ensures TotalPreorder(RankOrder(s))
  {
    var le := RankOrder(s);
    forall a, b ensures le(a, b) || le(b, a) {}
    forall a, b, c | le(a, b) && le(b, c) ensures le(a, c) {}
  }

  /** Distinctness survives any rearrangement, and sorting by risk id is then strict. */
  lemma CandidatesOfIsStrict(cands: seq<Candidate>, customer: CustomerId)
    requires DistinctRisks(cands)
    ensures var own := CandidatesOf(cands, customer);
            forall i, j :: 0 <= i < j < |own| ==> own[i].item.riskId < own[j].item.riskId
  {
    var own := CandidatesOf(cands, customer);
    RiskLeIsTotal();
    SortSorts(Of(cands, customer), RiskLe);
    CandidatesOfFacts(cands, customer);
    OfMembers(cands, customer);
    forall i, j | 0 <= i < j < |own| ensures own[i].item.riskId < own[j].item.riskId {
      assert RiskLe(own[i], own[j]);
      assert own[i] in own && own[j] in own;
      if own[i] == own[j] {
        OccursTwice(own, i, j);
      }
    }
  }

  // ---- Permutation invariance ----

  lemma {:induction false} AllocateForDependsOnPartition(
    s: Setup, at: Instant, t: Tables, outcomes: seq<Outcome>, a: seq<Candidate>, b: seq<Candidate>,
    customers: seq<CustomerId>)
    requires forall k :: CandidatesOf(a, k) == CandidatesOf(b, k)
    ensures AllocateFor(s, at, t, outcomes, a, customers) == AllocateFor(s, at, t, outcomes, b, customers)
    decreases |customers|
  {
    if customers != [] {
      var r := CustomerRound(s, at, t, outcomes, CandidatesOf(a, customers[0]));
      AllocateForDependsOnPartition(s, at, r.1, r.0, a, b, customers[1..]);
    }
  }

  /** Presenting the same candidates in another order gives the same outcomes and the same ledger. */
  lemma PresentationOrderIsIrrelevant(s: Setup, at: Instant, t: Tables, a: seq<Candidate>, b: seq<Candidate>)
    requires multiset(a) == multiset(b) && DistinctRisks(a)
    ensures AllocateWindow(s, at, t, a) == AllocateWindow(s, at, t, b)
  {
    SameMembers(a, b);
    CustomersFacts(a);
    CustomersFacts(b);
    IncreasingIsDetermined(Customers(a), Customers(b));
    RiskLeIsTotal();
    forall k ensures CandidatesOf(a, k) == CandidatesOf(b, k) {
      OfMembers(a, k);
      OfMembers(b, k);
      OfKeepsDistinct(a, k);
      assert multiset(Of(a, k)) == multiset(Of(b, k));
      SortIsCanonical(Of(a, k), Of(b, k), RiskLe);
    }
    AllocateForDependsOnPartition(s, at, t, [], a, b, Customers(a));
  }

  // ---- One outcome each ----

  lemma {:induction false} AdmitAllAccounts(s: Setup, at: Instant, a: Admission, cands: seq<Candidate>)
    ensures var r := AdmitAll(s, at, a, cands);
            multiset(Subjects(r.outcomes)) + multiset(Bare(r.admitted))
            == multiset(Subjects(a.outcomes)) + multiset(Bare(a.admitted)) + multiset(cands)
    decreases |cands|
  {
    if cands != [] {
      var c := cands[0];
      assert cands == [c] + cands[1..];
      var score := ScoreNow(s, a.tables, c, c.request.maxIncentiveBps, at);
      SubjectsAppend(a.outcomes, DenialOf(c, NegativeExpectedNet, Some(score)));
      BareAppend(a.admitted, (score, c));
      AdmitAllAccounts(s, at, AdmitOne(s, at, a, c), cands[1..]);
    }
  }

  lemma {:induction false} AttemptAllPicks(s: Setup, at: Instant, k: Contest, ranked: seq<Scored>)
    ensures var r := AttemptAll(s, at, k, ranked);
            r.winner.Some? ==> r.winner == k.winner || r.winner.value.candidate in Bare(ranked)
    decreases |ranked|
  {
    if ranked != [] {
      AttemptAllPicks(s, at, AttemptOne(s, at, k, ranked[0]), ranked[1..]);
    }
  }

  ghost function WinnersIn(k: Contest, ranked: seq<Scored>): seq<Candidate> {
    if ranked == [] then [] else
      (if IsWinner(k, ranked[0].1) then [ranked[0].1] else []) + WinnersIn(k, ranked[1..])
  }

  ghost function LosersIn(k: Contest, ranked: seq<Scored>): seq<Candidate> {
    if ranked == [] then [] else
      (if IsWinner(k, ranked[0].1) then [] else [ranked[0].1]) + LosersIn(k, ranked[1..])
  }

  lemma {:induction false} WinnersAndLosers(k: Contest, ranked: seq<Scored>)
    ensures multiset(WinnersIn(k, ranked)) + multiset(LosersIn(k, ranked)) == multiset(Bare(ranked))
  {
    if ranked != [] {
      WinnersAndLosers(k, ranked[1..]);
    }
  }

  lemma {:induction false} LosersAccount(k: Contest, t: Tables, outcomes: seq<Outcome>, ranked: seq<Scored>)
    ensures Subjects(Losers(k, t, outcomes, ranked).0) == Subjects(outcomes) + LosersIn(k, ranked)
    decreases |ranked|
  {
    if ranked != [] {
      if IsWinner(k, ranked[0].1) {
        LosersAccount(k, t, outcomes, ranked[1..]);
      } else {
        var loss := LossOf(k, ranked[0]);
        SubjectsAppend(outcomes, loss);
        LosersAccount(k, AfterDeferral(t, ranked[0].1), outcomes + [loss], ranked[1..]);
      }
    }
  }

  lemma {:induction false} OnlyTheWinnerWins(k: Contest, ranked: seq<Scored>)
    requires DistinctScoredRisks(ranked)
    requires k.winner.Some? ==> k.winner.value.candidate in Bare(ranked)
    ensures WinnersIn(k, ranked) == if k.winner.Some? then [k.winner.value.candidate] else []
  {
    if ranked != [] && k.winner.Some? {
      var w := k.winner.value.candidate;
      if IsWinner(k, ranked[0].1) {
        BareIndex(ranked);
        var i := BareMember(ranked, w);
        assert ranked[i].1.item.riskId == ranked[0].1.item.riskId;
        assert i == 0;
        forall j | 0 <= j < |ranked[1..]| ensures !IsWinner(k, ranked[1..][j].1) {
          assert ranked[1..][j] == ranked[j + 1];
        }
        NoWinnersIn(k, ranked[1..]);
      } else {
        assert w in Bare(ranked[1..]);
        OnlyTheWinnerWins(k, ranked[1..]);
      }
    } else if ranked != [] {
      OnlyTheWinnerWins(k, ranked[1..]);
    }
  }

  lemma {:induction false} NoWinnersIn(k: Contest, ranked: seq<Scored>)
    requires forall j :: 0 <= j < |ranked| ==> !IsWinner(k, ranked[j].1)
    ensures WinnersIn(k, ranked) == []
  {
    if ranked != [] {
      forall j | 0 <= j < |ranked[1..]| ensures !IsWinner(k, ranked[1..][j].1) {
        assert ranked[1..][j] == ranked[j + 1];
      }
      NoWinnersIn(k, ranked[1..]);
    }
  }

  /** Admission keeps the risk-id order, so whatever is admitted has distinct risk ids. */
  lemma {:induction false} AdmittedAreDistinct(s: Setup, at: Instant, a: Admission, cands: seq<Candidate>)
    requires forall i, j :: 0 <= i < j < |cands| ==> cands[i].item.riskId < cands[j].item.riskId
    requires DistinctScoredRisks(a.admitted)
    requires forall x, c :: x in a.admitted && c in cands ==> x.1.item.riskId < c.item.riskId
    ensures DistinctScoredRisks(AdmitAll(s, at, a, cands).admitted)
    decreases |cands|
  {
    if cands != [] {
      var a' := AdmitOne(s, at, a, cands[0]);
      forall x, c | x in a'.admitted && c in cands[1..] ensures x.1.item.riskId < c.item.riskId {
        assert x in a.admitted || x.1 == cands[0];
      }
      AdmittedAreDistinct(s, at, a', cands[1..]);
    }
  }

  lemma RankingKeepsDistinct(scored: seq<Scored>, le: (Scored, Scored) -> bool)
    requires DistinctScoredRisks(scored)
    ensures DistinctScoredRisks(Sort(scored, le))
  {
    var ranked := Sort(scored, le);
    SameMembers(scored, ranked);
    forall i, j | 0 <= i < j < |ranked| ensures ranked[i].1.item.riskId != ranked[j].1.item.riskId {
      assert ranked[i] in ranked && ranked[j] in ranked;
      if ranked[i].1.item.riskId == ranked[j].1.item.riskId {
        assert ranked[i] == ranked[j];
        OccursTwice(ranked, i, j);
        OccursOnce(scored, ranked[i]);
      }
    }
  }

  lemma {:induction false} OccursOnce(scored: seq<Scored>, x: Scored)
    requires DistinctScoredRisks(scored)
    ensures multiset(scored)[x] <= 1
  {
    if scored != [] {
      assert scored == [scored[0]] + scored[1..];
      OccursOnce(scored[1..], x);
      assert x == scored[0] ==> x !in scored[1..];
    }
  }

  lemma SettleAccounts(s: Setup, at: Instant, a: Admission)
    requires DistinctScoredRisks(a.admitted)
    ensures multiset(Subjects(Settle(s, at, a).0)) == multiset(Subjects(a.outcomes)) + multiset(Bare(a.admitted))
  {
    var ranked := Sort(a.admitted, RankOrder(s));
    BareOfSort(a.admitted, RankOrder(s));
    RankingKeepsDistinct(a.admitted, RankOrder(s));
    var k := AttemptAll(s, at, Contest(a.tables, None, map[]), ranked);
    AttemptAllPicks(s, at, Contest(a.tables, None, map[]), ranked);
    hide AttemptAll, Bare, WinnersIn, LosersIn, DistinctScoredRisks;
    OnlyTheWinnerWins(k, ranked);
    WinnersAndLosers(k, ranked);
    RoundTail(k, a.outcomes, ranked);
  }

  lemma RoundAccounts(s: Setup, at: Instant, t: Tables, outcomes: seq<Outcome>, cands: seq<Candidate>)
    requires forall i, j :: 0 <= i < j < |cands| ==> cands[i].item.riskId < cands[j].item.riskId
    ensures multiset(Subjects(CustomerRound(s, at, t, outcomes, cands).0))
            == multiset(Subjects(outcomes)) + multiset(cands)
  {
    hide AdmitAll, Settle, Subjects, DistinctScoredRisks;
    var a := AdmitAll(s, at, Admission(t, outcomes, []), cands);
    assert multiset(Subjects(a.outcomes)) + multiset(Bare(a.admitted))
           == multiset(Subjects(outcomes)) + multiset(cands)
    by {
      AdmitAllAccounts(s, at, Admission(t, outcomes, []), cands);
      assert Bare([]) == [];
    }
    if a.admitted == [] {
      assert multiset(Bare(a.admitted)) == multiset{};
    } else {
      NobodyAdmittedYet();
      AdmittedAreDistinct(s, at, Admission(t, outcomes, []), cands);
      SettleAccounts(s, at, a);
    }
  }

  lemma NobodyAdmittedYet()
    ensures DistinctScoredRisks([])
  {
  }

  lemma RoundTail(k: Contest, outcomes: seq<Outcome>, ranked: seq<Scored>)
    requires WinnersIn(k, ranked) == if k.winner.Some? then [k.winner.value.candidate] else []
    ensures var granted := if k.winner.Some? then [GrantOf(k.winner.value)] else [];
            multiset(Subjects(Losers(k, k.tables, outcomes + granted, ranked).0))
            == multiset(Subjects(outcomes)) + multiset(WinnersIn(k, ranked)) + multiset(LosersIn(k, ranked))
  {
    var granted := if k.winner.Some? then [GrantOf(k.winner.value)] else [];
    if k.winner.Some? {
      SubjectsAppend(outcomes, GrantOf(k.winner.value));
    } else {
      assert outcomes + granted == outcomes;
    }
    assert Subjects(outcomes + granted) == Subjects(outcomes) + WinnersIn(k, ranked);
    LosersAccount(k, k.tables, outcomes + granted, ranked);
  }

  lemma {:induction false} AllocateForAccounts(
    s: Setup, at: Instant, t: Tables, outcomes: seq<Outcome>, cands: seq<Candidate>, customers: seq<CustomerId>)
    requires DistinctRisks(cands)
    ensures multiset(Subjects(AllocateFor(s, at, t, outcomes, cands, customers).0))
            == multiset(Subjects(outcomes)) + OfAll(cands, customers)
    decreases |customers|
  {
    if customers != [] {
      CandidatesOfIsStrict(cands, customers[0]);
      CandidatesOfFacts(cands, customers[0]);
      RoundAccounts(s, at, t, outcomes, CandidatesOf(cands, customers[0]));
      var r := CustomerRound(s, at, t, outcomes, CandidatesOf(cands, customers[0]));
      AllocateForAccounts(s, at, r.1, r.0, cands, customers[1..]);
    }
  }

  /** Every candidate presented gets exactly one outcome. */
  lemma EachCandidateOneOutcome(s: Setup, at: Instant, t: Tables, cands: seq<Candidate>)
    requires DistinctRisks(cands)
    ensures multiset(Subjects(AllocateWindow(s, at, t, cands).0)) == multiset(cands)
  {
    AllocateForAccounts(s, at, t, [], cands, Customers(cands));
    PartitionCovers(cands);
  }

  // ---- One grant per customer ----

  /** The outcomes from index `from` on are all about one customer, and at most one is a grant. */
  ghost predicate OneRound(outcomes: seq<Outcome>, from: nat, customer: CustomerId) {
    && (forall i :: from <= i < |outcomes| ==> outcomes[i].candidate.customerId == customer)
    && (forall i, j :: from <= i < j < |outcomes| ==> !(outcomes[i].kind.Granted? && outcomes[j].kind.Granted?))
  }

  lemma {:induction false} AdmitAllGrantsNothing(s: Setup, at: Instant, a: Admission, cands: seq<Candidate>, from: nat,
                                                 customer: CustomerId)
    requires from <= |a.outcomes| && OneRound(a.outcomes, from, customer)
    requires forall i :: from <= i < |a.outcomes| ==> !a.outcomes[i].kind.Granted?
    requires forall c :: c in cands ==> c.customerId == customer
    requires forall x :: x in a.admitted ==> x.1.customerId == customer
    ensures var r := AdmitAll(s, at, a, cands);
            && a.outcomes <= r.outcomes && OneRound(r.outcomes, from, customer)
            && (forall i :: from <= i < |r.outcomes| ==> !r.outcomes[i].kind.Granted?)
            && (forall x :: x in r.admitted ==> x.1.customerId == customer)
    decreases |cands|
  {
    if cands != [] {
      AdmitAllGrantsNothing(s, at, AdmitOne(s, at, a, cands[0]), cands[1..], from, customer);
    }
  }

  lemma {:induction false} LosersGrantNothing(k: Contest, t: Tables, outcomes: seq<Outcome>, ranked: seq<Scored>,
                                              from: nat, customer: CustomerId)
    requires from <= |outcomes| && OneRound(outcomes, from, customer)
    requires forall x :: x in ranked ==> x.1.customerId == customer
    ensures var r := Losers(k, t, outcomes, ranked).0;
            outcomes <= r && OneRound(r, from, customer)
    decreases |ranked|
  {
    if ranked != [] {
      if IsWinner(k, ranked[0].1) {
        LosersGrantNothing(k, t, outcomes, ranked[1..], from, customer);
      } else {
        LosersGrantNothing(k, AfterDeferral(t, ranked[0].1), outcomes + [LossOf(k, ranked[0])], ranked[1..], from,
                           customer);
      }
    }
  }

  lemma RoundGrantsOnce(s: Setup, at: Instant, t: Tables, outcomes: seq<Outcome>, cands: seq<Candidate>,
                        customer: CustomerId)
    requires forall c :: c in cands ==> c.customerId == customer
    ensures var r := CustomerRound(s, at, t, outcomes, cands).0;
            outcomes <= r && OneRound(r, |outcomes|, customer)
  {
    var a := AdmitAll(s, at, Admission(t, outcomes, []), cands);
    AdmitAllGrantsNothing(s, at, Admission(t, outcomes, []), cands, |outcomes|, customer);
    if a.admitted != [] {
      var ranked := Sort(a.admitted, RankOrder(s));
      SameMembers(a.admitted, ranked);
      var k := AttemptAll(s, at, Contest(a.tables, None, map[]), ranked);
      AttemptAllPicks(s, at, Contest(a.tables, None, map[]), ranked);
      if k.winner.Some? {
        var i := BareMember(ranked, k.winner.value.candidate);
        assert ranked[i] in ranked;
      }
      LosersGrantNothing(k, k.tables, a.outcomes + (if k.winner.Some? then [GrantOf(k.winner.value)] else []),
                         ranked, |outcomes|, customer);
    }
  }

  ghost predicate GrantsAreOnePerCustomer(outcomes: seq<Outcome>) {
    forall i, j :: 0 <= i < j < |outcomes| && outcomes[i].kind.Granted? && outcomes[j].kind.Granted? ==>
                     outcomes[i].candidate.customerId != outcomes[j].candidate.customerId
  }

  lemma {:induction false} AllocateForGrantsOnce(
    s: Setup, at: Instant, t: Tables, outcomes: seq<Outcome>, cands: seq<Candidate>, customers: seq<CustomerId>)
    requires StrictlyIncreasing(customers) && GrantsAreOnePerCustomer(outcomes)
    requires forall o :: o in outcomes ==> o.candidate.customerId !in customers
    ensures GrantsAreOnePerCustomer(AllocateFor(s, at, t, outcomes, cands, customers).0)
    decreases |customers|
  {
    if customers != [] {
      var own := CandidatesOf(cands, customers[0]);
      CandidatesOfFacts(cands, customers[0]);
      RoundGrantsOnce(s, at, t, outcomes, own, customers[0]);
      var r := CustomerRound(s, at, t, outcomes, own);
      forall o | o in r.0 ensures o.candidate.customerId !in customers[1..] {
        var i :| 0 <= i < |r.0| && r.0[i] == o;
        assert i < |outcomes| ==> o in outcomes;
      }
      forall i | 0 <= i < |outcomes| ensures r.0[i].candidate.customerId != customers[0] {
        assert r.0[i] in outcomes;
      }
      AllocateForGrantsOnce(s, at, r.1, r.0, cands, customers[1..]);
    }
  }

  /** A window grants each customer at most once, whatever it is given. */
  lemma OneGrantPerCustomer(s: Setup, at: Instant, t: Tables, cands: seq<Candidate>)
    ensures GrantsAreOnePerCustomer(AllocateWindow(s, at, t, cands).0)
  {
    CustomersFacts(cands);
    AllocateForGrantsOnce(s, at, t, [], cands, Customers(cands));
  }
}
