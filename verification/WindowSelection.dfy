/**
 * Who is granted in a window: for every customer the winner of its own round, decided on the ledger
 * that the rounds of the customers before it have left.
 */
module WindowSelection {
  import opened Allocator
  import opened AllocatorProperties
  import opened AllocatorSelection
  import opened Clock
  import opened Contracts
  import opened Ledger
  import opened Ranking
  import opened Sorting
  import opened Wrappers

  /** Candidates for one window, each with a request of its own that has no grant yet. */
  ghost predicate NewInWindow(t: Tables, cands: seq<Candidate>, w: Window) {
    && RequestsKnown(t)
    && (forall c :: c in cands ==> c.windowId == w && FindRequest(t.grants, c.request.requestId).None?)
    && (forall a, b :: a in cands && b in cands && a.request.requestId == b.request.requestId ==> a == b)
  }

  ghost predicate IsGranted(outcomes: seq<Outcome>, c: Candidate) {
    exists i :: 0 <= i < |outcomes| && outcomes[i].kind.Granted? && outcomes[i].candidate == c
  }

  // ---- What a round adds to the ledger ----

  /** Whatever was granted in between was granted to one of these. */
  ghost predicate GrantsOnlyTo(t: Tables, t': Tables, cands: seq<Candidate>) {
    && RequestsKnown(t') && t.grants <= t'.grants
    && forall i :: |t.grants| <= i < |t'.grants| ==>
         exists c :: c in cands && c.request.requestId == t'.grants[i].requestId
  }

  lemma IssueGrantsOnlyTo(world: World, t: Tables, c: Candidate, bps: int, at: Instant, cands: seq<Candidate>)
    requires RequestsKnown(t) && c in cands
    ensures GrantsOnlyTo(t, IssueGrant(world, t, c, bps, at).1, cands)
  {
    hide Refusal, CeilingFor, MerchantPool, CustomerPool;
  }

  lemma AttemptGrantsOnlyTo(s: Setup, at: Instant, k: Contest, x: Scored, cands: seq<Candidate>)
    requires RequestsKnown(k.tables) && x.1 in cands
    ensures GrantsOnlyTo(k.tables, AttemptOne(s, at, k, x).tables, cands)
  {
    var t := Touch(s.world, k.tables, x.1.customerId, x.1.windowId);
    var offer := OfferFor(s, at, t, x);
    IssueGrantsOnlyTo(s.world, t, x.1, offer.bps, at, cands);
    hide IssueGrant, OfferFor;
  }

  lemma {:induction false} AttemptsGrantOnlyTo(s: Setup, at: Instant, k: Contest, ranked: seq<Scored>,
                                               cands: seq<Candidate>)
    requires RequestsKnown(k.tables) && forall x :: x in ranked ==> x.1 in cands
    ensures GrantsOnlyTo(k.tables, AttemptAll(s, at, k, ranked).tables, cands)
    decreases |ranked|
  {
    if ranked != [] {
      AttemptGrantsOnlyTo(s, at, k, ranked[0], cands);
      hide AttemptOne;
      AttemptsGrantOnlyTo(s, at, AttemptOne(s, at, k, ranked[0]), ranked[1..], cands);
    }
  }

  lemma {:induction false} LosersOnlyDeny(k: Contest, t: Tables, outcomes: seq<Outcome>, ranked: seq<Scored>)
    ensures var t' := Losers(k, t, outcomes, ranked).1; t'.grants == t.grants && t'.requests == t.requests
    decreases |ranked|
  {
    if ranked != [] {
      LosersOnlyDeny(k, if IsWinner(k, ranked[0].1) then t else AfterDeferral(t, ranked[0].1),
                     if IsWinner(k, ranked[0].1) then outcomes else outcomes + [LossOf(k, ranked[0])], ranked[1..]);
    }
  }

  lemma RoundGrantsOnlyTo(s: Setup, at: Instant, t: Tables, outcomes: seq<Outcome>, cands: seq<Candidate>)
    requires RequestsKnown(t)
    ensures GrantsOnlyTo(t, CustomerRound(s, at, t, outcomes, cands).1, cands)
  {
    var a := AdmitAll(s, at, Admission(t, outcomes, []), cands);
    AdmitAllOnlyDenies(s, at, Admission(t, outcomes, []), cands);
    hide AttemptAll, Losers;
    if a.admitted != [] {
      var ranked := Sort(a.admitted, RankOrder(s));
      SameMembers(a.admitted, ranked);
      var k := AttemptAll(s, at, Contest(a.tables, None, map[]), ranked);
      AttemptsGrantOnlyTo(s, at, Contest(a.tables, None, map[]), ranked, cands);
      LosersOnlyDeny(k, k.tables, a.outcomes + (if k.winner.Some? then [GrantOf(k.winner.value)] else []), ranked);
    }
  }

  lemma StillUngranted(t: Tables, t': Tables, cands: seq<Candidate>, id: RequestId)
    requires GrantsOnlyTo(t, t', cands) && FindRequest(t.grants, id).None?
    requires forall c :: c in cands ==> c.request.requestId != id
    ensures FindRequest(t'.grants, id).None?
  {
    forall i | 0 <= i < |t'.grants| ensures t'.grants[i].requestId != id {
      assert i < |t.grants| ==> t'.grants[i] == t.grants[i];
    }
  }

  // ---- What a round says ----

  /** From index `from` on the only grant is the winner's. */
  ghost predicate OnlyWinnerFrom(outcomes: seq<Outcome>, from: nat, winner: Option<Winner>) {
    forall i :: from <= i < |outcomes| && outcomes[i].kind.Granted? ==>
                  winner.Some? && outcomes[i].candidate == winner.value.candidate
  }

  /** What was decided before plays no part in admission. */
  lemma {:induction false} AdmissionIgnoresOutcomes(
    s: Setup, at: Instant, t: Tables, admitted: seq<Scored>, a: seq<Outcome>, b: seq<Outcome>, cands: seq<Candidate>)
    ensures var r, r' := AdmitAll(s, at, Admission(t, a, admitted), cands), AdmitAll(s, at, Admission(t, b, admitted),
          cands);
            r.tables == r'.tables && r.admitted == r'.admitted
    decreases |cands|
  {
    if cands != [] {
      var x, y := AdmitOne(s, at, Admission(t, a, admitted), cands[0]),
          AdmitOne(s, at, Admission(t, b, admitted), cands[0]);
      AdmissionIgnoresOutcomes(s, at, x.tables, x.admitted, x.outcomes, y.outcomes, cands[1..]);
    }
  }

  lemma {:induction false} AdmissionGrantsNobody(s: Setup, at: Instant, a: Admission, cands: seq<Candidate>, from: nat)
    requires from <= |a.outcomes| && OnlyWinnerFrom(a.outcomes, from, None)
    ensures var r := AdmitAll(s, at, a, cands).outcomes;
            a.outcomes <= r && OnlyWinnerFrom(r, from, None)
    decreases |cands|
  {
    if cands != [] {
      AdmissionGrantsNobody(s, at, AdmitOne(s, at, a, cands[0]), cands[1..], from);
    }
  }

  lemma {:induction false} LosersAreNotGranted(
    k: Contest, t: Tables, outcomes: seq<Outcome>, ranked: seq<Scored>, from: nat, winner: Option<Winner>)
    requires from <= |outcomes| && OnlyWinnerFrom(outcomes, from, winner)
    ensures var r := Losers(k, t, outcomes, ranked).0;
            outcomes <= r && OnlyWinnerFrom(r, from, winner)
    decreases |ranked|
  {
    if ranked != [] {
      LosersAreNotGranted(k, if IsWinner(k, ranked[0].1) then t else AfterDeferral(t, ranked[0].1),
                          if IsWinner(k, ranked[0].1) then outcomes else outcomes + [LossOf(k, ranked[0])], ranked[1..],
                          from, winner);
    }
  }

  lemma SettleGrantsTheWinner(s: Setup, at: Instant, a: Admission, from: nat)
    requires from <= |a.outcomes| && OnlyWinnerFrom(a.outcomes, from, None)
    ensures var k := AttemptAll(s, at, Contest(a.tables, None, map[]), Sort(a.admitted, RankOrder(s)));
            var r := Settle(s, at, a).0;
            && a.outcomes <= r && OnlyWinnerFrom(r, from, k.winner)
            && (k.winner.Some? ==> |a.outcomes| < |r| && r[|a.outcomes|] == GrantOf(k.winner.value))
  {
    var ranked := Sort(a.admitted, RankOrder(s));
    var k := AttemptAll(s, at, Contest(a.tables, None, map[]), ranked);
    hide AttemptAll, Sort;
    var settled := a.outcomes + (if k.winner.Some? then [GrantOf(k.winner.value)] else []);
    LosersAreNotGranted(k, k.tables, settled, ranked, from, k.winner);
    assert k.winner.Some? ==> settled[|a.outcomes|] == GrantOf(k.winner.value);
  }

  lemma NobodyRanked(s: Setup, at: Instant, k: Contest)
    requires k.winner.None?
    ensures Sort([], RankOrder(s)) == [] && AttemptAll(s, at, k, []) == k
  {
  }

  /** A round grants the winner of its contest and nobody else. */
  lemma RoundGrantsTheWinner(s: Setup, at: Instant, t: Tables, outcomes: seq<Outcome>, cands: seq<Candidate>)
    ensures var r, winner := CustomerRound(s, at, t, outcomes, cands).0, RoundContest(s, at, t, cands).1.winner;
            && outcomes <= r && OnlyWinnerFrom(r, |outcomes|, winner)
            && (winner.Some? ==> exists i :: |outcomes| <= i < |r| && r[i] == GrantOf(winner.value))
    ensures CustomerRound(s, at, t, outcomes, cands).1 == CustomerRound(s, at, t, [], cands).1
  {
    AdmissionIgnoresOutcomes(s, at, t, [], outcomes, [], cands);
    AdmissionGrantsNobody(s, at, Admission(t, outcomes, []), cands, |outcomes|);
    var a := AdmitAll(s, at, Admission(t, outcomes, []), cands);
    hide AdmitAll;
    if a.admitted == [] {
      NobodyRanked(s, at, Contest(a.tables, None, map[]));
    } else {
      SettleGrantsTheWinner(s, at, a, |outcomes|);
      SettledLedger(s, at, a, AdmitAll(s, at, Admission(t, [], []), cands));
    }
  }

  lemma {:induction false} LosersLedger(k: Contest, t: Tables, a: seq<Outcome>, b: seq<Outcome>, ranked: seq<Scored>)
    ensures Losers(k, t, a, ranked).1 == Losers(k, t, b, ranked).1
    decreases |ranked|
  {
    if ranked != [] {
      if IsWinner(k, ranked[0].1) {
        LosersLedger(k, t, a, b, ranked[1..]);
      } else {
        LosersLedger(k, AfterDeferral(t, ranked[0].1), a + [LossOf(k, ranked[0])], b + [LossOf(k, ranked[0])],
                     ranked[1..]);
      }
    }
  }

  lemma SettledLedger(s: Setup, at: Instant, a: Admission, b: Admission)
    requires a.tables == b.tables && a.admitted == b.admitted
    ensures Settle(s, at, a).1 == Settle(s, at, b).1
  {
    var ranked := Sort(a.admitted, RankOrder(s));
    var k := AttemptAll(s, at, Contest(a.tables, None, map[]), ranked);
    var granted := if k.winner.Some? then [GrantOf(k.winner.value)] else [];
    LosersLedger(k, k.tables, a.outcomes + granted, b.outcomes + granted, ranked);
  }

  // ---- The whole window ----

  /** The ledger on which a customer's round starts. */
  ghost function LedgerBefore(
    s: Setup, at: Instant, t: Tables, cands: seq<Candidate>, customers: seq<CustomerId>, customer: CustomerId): Tables
    decreases |customers|
  {
    if customers == [] || customers[0] == customer then t
    else LedgerBefore(s, at, CustomerRound(s, at, t, [], CandidatesOf(cands, customers[0])).1, cands, customers[1..],
                      customer)
  }

  /** The rounds before leave a customer's candidates as new as they were. */
  lemma {:induction false} StaysNew(
    s: Setup, at: Instant, t: Tables, cands: seq<Candidate>, customers: seq<CustomerId>, customer: CustomerId,
    w: Window)
    requires RequestsKnown(t) && (forall c :: c in cands ==> c.windowId == w)
    requires forall a, b :: a in cands && b in cands && a.request.requestId == b.request.requestId ==> a == b
    requires forall c :: c in cands && c.customerId == customer ==> FindRequest(t.grants, c.request.requestId).None?
    ensures OneSlot(LedgerBefore(s, at, t, cands, customers, customer), CandidatesOf(cands, customer), customer, w)
    decreases |customers|
  {
    if customers == [] || customers[0] == customer {
      CandidatesOfFacts(cands, customer);
    } else {
      var own := CandidatesOf(cands, customers[0]);
      var t' := CustomerRound(s, at, t, [], own).1;
      CandidatesOfFacts(cands, customers[0]);
      RoundGrantsOnlyTo(s, at, t, [], own);
      hide CustomerRound;
      forall c | c in cands && c.customerId == customer ensures FindRequest(t'.grants, c.request.requestId).None? {
        StillUngranted(t, t', own, c.request.requestId);
      }
      StaysNew(s, at, t', cands, customers[1..], customer, w);
    }
  }

  ghost predicate NotAbout(outcomes: seq<Outcome>, from: nat, customer: CustomerId) {
    forall i :: from <= i < |outcomes| ==> outcomes[i].candidate.customerId != customer
  }

  /** Rounds of other customers leave a customer's outcomes alone. */
  lemma {:induction false} OtherRounds(
    s: Setup, at: Instant, t: Tables, outcomes: seq<Outcome>, cands: seq<Candidate>, customers: seq<CustomerId>,
    customer: CustomerId)
    requires customer !in customers
    ensures var r := AllocateFor(s, at, t, outcomes, cands, customers).0;
            outcomes <= r && NotAbout(r, |outcomes|, customer)
    decreases |customers|
  {
    if customers != [] {
      var own := CandidatesOf(cands, customers[0]);
      CandidatesOfFacts(cands, customers[0]);
      RoundGrantsOnce(s, at, t, outcomes, own, customers[0]);
      var r := CustomerRound(s, at, t, outcomes, own);
      hide CustomerRound;
      OtherRounds(s, at, r.1, r.0, cands, customers[1..], customer);
    }
  }

  lemma GrantedInRound(before: seq<Outcome>, round: seq<Outcome>, all: seq<Outcome>, winner: Option<Winner>,
                       c: Candidate)
    requires before <= round <= all && NotAbout(before, 0, c.customerId) && NotAbout(all, |round|, c.customerId)
    requires OnlyWinnerFrom(round, |before|, winner)
    requires winner.Some? ==> exists i :: |before| <= i < |round| && round[i] == GrantOf(winner.value)
    ensures IsGranted(all, c) <==> winner.Some? && winner.value.candidate == c
  {
    if winner.Some? && winner.value.candidate == c {
      var i :| |before| <= i < |round| && round[i] == GrantOf(winner.value);
      assert all[i] == round[i];
    }
    if IsGranted(all, c) {
      var i :| 0 <= i < |all| && all[i].kind.Granted? && all[i].candidate == c;
      assert i < |round| && all[i] == round[i];
      assert i < |before| ==> round[i] == before[i];
    }
  }

  /** In the window's outcomes a customer's candidate is granted exactly if it won the customer's round. */
  lemma {:induction false} GrantedIfWon(
    s: Setup, at: Instant, t: Tables, outcomes: seq<Outcome>, cands: seq<Candidate>, customers: seq<CustomerId>,
    c: Candidate)
    requires StrictlyIncreasing(customers) && c.customerId in customers && NotAbout(outcomes, 0, c.customerId)
    ensures var before := LedgerBefore(s, at, t, cands, customers, c.customerId);
            IsGranted(AllocateFor(s, at, t, outcomes, cands, customers).0, c)
            <==> Won(RoundContest(s, at, before, CandidatesOf(cands, c.customerId)).1, c)
    decreases |customers|
  {
    var own := CandidatesOf(cands, customers[0]);
    var r := CustomerRound(s, at, t, outcomes, own);
    RoundGrantsTheWinner(s, at, t, outcomes, own);
    hide CustomerRound, RoundContest;
    if customers[0] == c.customerId {
      OtherRounds(s, at, r.1, r.0, cands, customers[1..], c.customerId);
      GrantedInRound(outcomes, r.0, AllocateFor(s, at, t, outcomes, cands, customers).0,
                     RoundContest(s, at, t, own).1.winner, c);
    } else {
      CandidatesOfFacts(cands, customers[0]);
      RoundGrantsOnce(s, at, t, outcomes, own, customers[0]);
      GrantedIfWon(s, at, r.1, r.0, cands, customers[1..], c);
    }
  }

  /**
   * Every customer of a window, for any scorer and in either mode: on the ledger its round starts
   * from, the highest priority is granted exactly when issuance does not refuse the slot and its
   * downgraded offer is still worth something; nobody of the customer's is exactly when the slot is
   * refused or no offer is worth anything; and whoever is comes first in rank of those whose offer is.
   */
  lemma HighestPriorityOfEveryCustomer(s: Setup, at: Instant, t: Tables, cands: seq<Candidate>, customer: CustomerId,
                                       w: Window)
    requires NewInWindow(t, cands, w) && customer in Customers(cands)
    ensures var outcomes := AllocateWindow(s, at, t, cands).0;
            var own, before := CandidatesOf(cands, customer), LedgerBefore(s, at, t, cands, Customers(cands), customer);
            var ranked, after := RoundContest(s, at, before, own).0, AdmittedLedger(s, at, before, own);
            var refusal := Refusal(s.world, before, customer, w, at);
            && OneSlot(before, own, customer, w)
            && (ranked != [] ==>
                (IsGranted(outcomes, ranked[0].1) <==> refusal.None? && Viable(s, at, after, ranked[0])))
            && ((forall c :: c in own ==> !IsGranted(outcomes, c))
                <==> refusal.Some? || forall x :: x in ranked ==> !Viable(s, at, after, x))
            && (forall c :: c in own && IsGranted(outcomes, c) ==> RanksFirst(s, at, after, ranked, c))
  {
    var own, before := CandidatesOf(cands, customer), LedgerBefore(s, at, t, cands, Customers(cands), customer);
    var (ranked, k) := RoundContest(s, at, before, own);
    CustomersFacts(cands);
    CandidatesOfFacts(cands, customer);
    StaysNew(s, at, t, cands, Customers(cands), customer, w);
    HighestPriorityOrNobody(s, at, before, own, customer, w);
    RankedAreOwn(s, at, before, own);
    hide RoundContest, Viable, Refusal, CandidatesOf, Customers, LedgerBefore, RanksFirst, OneSlot, AdmittedLedger;
    forall c | c in own ensures IsGranted(AllocateWindow(s, at, t, cands).0, c) <==> Won(k, c) {
      GrantedIfWon(s, at, t, [], cands, Customers(cands), c);
    }
    if k.winner.Some? {
      assert Won(k, k.winner.value.candidate);
    }
  }

  /** The ranking, and so the winner, is of the round's own candidates. */
  lemma RankedAreOwn(s: Setup, at: Instant, t: Tables, cands: seq<Candidate>)
    ensures var (ranked, k) := RoundContest(s, at, t, cands);
            && (forall x :: x in ranked ==> x.1 in cands)
            && (k.winner.Some? ==> k.winner.value.candidate in cands)
  {
    var a := AdmitAll(s, at, Admission(t, [], []), cands);
    AdmitAllOnlyDenies(s, at, Admission(t, [], []), cands);
    var ranked := Sort(a.admitted, RankOrder(s));
    SameMembers(a.admitted, ranked);
    var start := Contest(a.tables, None, map[]);
    AttemptAllPicks(s, at, start, ranked);
    var k := AttemptAll(s, at, start, ranked);
    if k.winner.Some? {
      var i := BareMember(ranked, k.winner.value.candidate);
      assert ranked[i] in ranked;
    }
  }

  // ---- The same, of the admitted ----

  /** The admitted of a customer's round, each with the score it was admitted at. */
  ghost function AdmittedOf(s: Setup, at: Instant, t: Tables, cands: seq<Candidate>): seq<Scored> {
    AdmitAll(s, at, Admission(t, [], []), cands).admitted
  }

  lemma RankedAreAdmitted(s: Setup, at: Instant, t: Tables, cands: seq<Candidate>)
    ensures forall x :: x in RoundContest(s, at, t, cands).0 <==> x in AdmittedOf(s, at, t, cands)
  {
    var a := AdmitAll(s, at, Admission(t, [], []), cands);
    SortedMembers(s, a.admitted);
    hide AdmitAll, AttemptAll, Sort, RankOrder;
  }

  lemma SortedMembers(s: Setup, admitted: seq<Scored>)
    ensures forall x :: x in Sort(admitted, RankOrder(s)) <==> x in admitted
  {
    var ranked := Sort(admitted, RankOrder(s));
    hide RankOrder, Sort;
    forall x: Scored ensures x in ranked <==> x in admitted {
      assert x in ranked <==> x in multiset(ranked);
      assert x in admitted <==> x in multiset(admitted);
    }
  }

  lemma OwnCandidate(cands: seq<Candidate>, c: Candidate)
    requires c in cands
    ensures c in CandidatesOf(cands, c.customerId) && c.customerId in Customers(cands)
  {
    CustomersFacts(cands);
    OfMembers(cands, c.customerId);
    SameMembers(CandidatesOf(cands, c.customerId), Of(cands, c.customerId));
  }

  /**
   * In the outcomes of a whole window, whoever is granted outranks every admitted candidate of the same
   * customer whose offer is worth something: no other has more expected net and aging bonus together,
   * and ties are broken by amount, detection and identifiers.
   */
  lemma GrantedIsAhead(s: Setup, at: Instant, t: Tables, cands: seq<Candidate>, w: Window, c: Candidate)
    requires NewInWindow(t, cands, w) && c in cands && IsGranted(AllocateWindow(s, at, t, cands).0, c)
    ensures var own := CandidatesOf(cands, c.customerId);
            var before := LedgerBefore(s, at, t, cands, Customers(cands), c.customerId);
            RanksFirst(s, at, AdmittedLedger(s, at, before, own), AdmittedOf(s, at, before, own), c)
  {
    var own := CandidatesOf(cands, c.customerId);
    var before := LedgerBefore(s, at, t, cands, Customers(cands), c.customerId);
    OwnCandidate(cands, c);
    HighestPriorityOfEveryCustomer(s, at, t, cands, c.customerId, w);
    RankedAreAdmitted(s, at, before, own);
    hide *;
    SameRanksFirst(s, at, AdmittedLedger(s, at, before, own), RoundContest(s, at, before, own).0,
                   AdmittedOf(s, at, before, own), c);
  }

  lemma SameRanksFirst(s: Setup, at: Instant, t: Tables, a: seq<Scored>, b: seq<Scored>, c: Candidate)
    requires RanksFirst(s, at, t, a, c) && forall x :: x in a <==> x in b
    ensures RanksFirst(s, at, t, b, c)
  {
    hide Viable, Outranks;
  }

  /** Somebody is granted whenever issuance does not refuse and somebody's offer is worth something. */
  lemma SomebodyIsGranted(s: Setup, at: Instant, t: Tables, cands: seq<Candidate>, customer: CustomerId, w: Window)
    requires NewInWindow(t, cands, w) && customer in Customers(cands)
    ensures var own := CandidatesOf(cands, customer);
            var before := LedgerBefore(s, at, t, cands, Customers(cands), customer);
            (exists c :: c in own && IsGranted(AllocateWindow(s, at, t, cands).0, c))
            <==> Refusal(s.world, before, customer, w, at).None?
                 && exists x :: x in AdmittedOf(s, at, before, own)
                      && Viable(s, at, AdmittedLedger(s, at, before, own), x)
  {
    var own := CandidatesOf(cands, customer);
    var before := LedgerBefore(s, at, t, cands, Customers(cands), customer);
    HighestPriorityOfEveryCustomer(s, at, t, cands, customer, w);
    RankedAreAdmitted(s, at, before, own);
    hide *;
  }
}
