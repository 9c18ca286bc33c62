/**
 * What mediating one window does, whatever it is given: candidates of the window end granted,
 * denied, or deferred to 09:00 of the very next day, and every new grant belongs to the window.
 */
module WindowEffects {
  import opened Allocator
  import opened AllocatorProperties
  import opened Clock
  import opened Contracts
  import opened HardFilter
  import opened Ledger
  import opened Sorting
  import opened Wrappers

  /** Presented in its own window, and not before the window opens. */
  ghost predicate InWindow(c: Candidate, w: Window) {
    c.windowId == w && WindowIdFor(c.sendAfter) == w && LocalHour(c.sendAfter) >= QUIET_HOURS_END_HOUR
  }

  ghost predicate AllInWindow(cands: seq<Candidate>, w: Window) {
    forall c :: c in cands ==> InWindow(c, w)
  }

  /** A candidate one deferral later: older by one window, due when the next window opens. */
  ghost function CarriedTo(c: Candidate, w: Window): Candidate {
    c.(windowsDeferred := c.windowsDeferred + 1, windowId := w, sendAfter := WindowStartFor(w))
  }

  ghost predicate Shaped(o: Outcome, w: Window) {
    && InWindow(o.candidate, w)
    && (o.kind.Granted? <==> o.grant.Some?) && (o.kind.Granted? <==> o.effectiveBps.Some?)
    && (o.kind.Granted? <==> o.reason.None?)
    && (o.kind.Deferred? <==> o.nextEligibleAt.Some?) && (o.kind.Deferred? <==> o.rescheduled.Some?)
    && (o.kind.Deferred? ==>
          && o.candidate.windowsDeferred + 1 < MAX_DEFERRAL_WINDOWS
          && o.nextEligibleAt == Some(WindowStartFor(w + 1))
          && o.rescheduled == Some(CarriedTo(o.candidate, w + 1)))
  }

  ghost predicate AllShaped(outcomes: seq<Outcome>, w: Window) {
    forall o :: o in outcomes ==> Shaped(o, w)
  }

  /** Grants are only ever added, and only in window `w`. */
  ghost predicate GrantsExtend(t: Tables, t': Tables, w: Window) {
    t.grants <= t'.grants && forall i :: |t.grants| <= i < |t'.grants| ==> t'.grants[i].windowId == w
  }

  ghost predicate ScoredInWindow(scored: seq<Scored>, w: Window) {
    forall x :: x in scored ==> InWindow(x.1, w)
  }

  ghost predicate ContestInWindow(k: Contest, w: Window) {
    && (k.winner.Some? ==> InWindow(k.winner.value.candidate, w))
    && (forall risk :: risk in k.denials ==> k.denials[risk].1 == WindowStartFor(w + 1))
  }

  /** A candidate waits six times at most: then it is denied for good. */
  lemma DeferralIsShaped(c: Candidate, reason: ReasonCode, score: Option<real>, w: Window)
    requires InWindow(c, w)
    ensures var o := DeferredOrDenied(c, reason, WindowStartFor(w + 1), score);
            && Shaped(o, w) && o.candidate == c && o.score == score
            && (c.windowsDeferred < 6 ==> o.kind.Deferred? && o.reason == Some(reason))
            && (c.windowsDeferred >= 6 ==> o.kind.Denied? && o.reason == Some(DeferralExhausted))
  {
    WindowOfStart(w + 1);
  }

  lemma {:induction false} AdmitAllShapes(s: Setup, at: Instant, a: Admission, cands: seq<Candidate>, w: Window)
    requires AllShaped(a.outcomes, w) && AllInWindow(cands, w) && ScoredInWindow(a.admitted, w)
    ensures var r := AdmitAll(s, at, a, cands);
            && AllShaped(r.outcomes, w) && ScoredInWindow(r.admitted, w)
            && r.tables == a.tables.(deniedRiskIds := r.tables.deniedRiskIds)
    decreases |cands|
  {
    if cands != [] {
      AdmitAllShapes(s, at, AdmitOne(s, at, a, cands[0]), cands[1..], w);
    }
  }

  lemma AttemptOneShapes(s: Setup, at: Instant, k: Contest, x: Scored, w: Window)
    requires ContestInWindow(k, w) && InWindow(x.1, w)
    ensures var r := AttemptOne(s, at, k, x);
            ContestInWindow(r, w) && GrantsExtend(k.tables, r.tables, w)
  {
  }

  lemma {:induction false} AttemptAllShapes(s: Setup, at: Instant, k: Contest, ranked: seq<Scored>, w: Window)
    requires ContestInWindow(k, w) && ScoredInWindow(ranked, w)
    ensures var r := AttemptAll(s, at, k, ranked);
            ContestInWindow(r, w) && GrantsExtend(k.tables, r.tables, w)
    decreases |ranked|
  {
    if ranked != [] {
      AttemptOneShapes(s, at, k, ranked[0], w);
      AttemptAllShapes(s, at, AttemptOne(s, at, k, ranked[0]), ranked[1..], w);
    }
  }

  lemma {:induction false} LosersShape(k: Contest, t: Tables, outcomes: seq<Outcome>, ranked: seq<Scored>, w: Window)
    requires ContestInWindow(k, w) && ScoredInWindow(ranked, w) && AllShaped(outcomes, w)
    ensures var (r, t') := Losers(k, t, outcomes, ranked);
            AllShaped(r, w) && t' == t.(deniedRiskIds := t'.deniedRiskIds)
    decreases |ranked|
  {
    if ranked != [] {
      if IsWinner(k, ranked[0].1) {
        LosersShape(k, t, outcomes, ranked[1..], w);
      } else {
        var c := ranked[0].1;
        assert ranked[0] in ranked;
        DeferralIsShaped(c, LostToHigherExpectedNet, Some(ranked[0].0), w);
        if c.item.riskId in k.denials {
          DeferralIsShaped(c, k.denials[c.item.riskId].0, Some(ranked[0].0), w);
        }
        LosersShape(k, AfterDeferral(t, c), outcomes + [LossOf(k, ranked[0])], ranked[1..], w);
      }
    }
  }

  lemma RoundShapes(s: Setup, at: Instant, t: Tables, outcomes: seq<Outcome>, cands: seq<Candidate>, w: Window)
    requires AllShaped(outcomes, w) && AllInWindow(cands, w)
    ensures var (r, t') := CustomerRound(s, at, t, outcomes, cands);
            AllShaped(r, w) && GrantsExtend(t, t', w)
  {
    var a := AdmitAll(s, at, Admission(t, outcomes, []), cands);
    AdmitAllShapes(s, at, Admission(t, outcomes, []), cands, w);
    if a.admitted != [] {
      var ranked := Sort(a.admitted, RankOrder(s));
      SameMembers(a.admitted, ranked);
      AttemptAllShapes(s, at, Contest(a.tables, None, map[]), ranked, w);
      var k := AttemptAll(s, at, Contest(a.tables, None, map[]), ranked);
      LosersShape(k, k.tables, a.outcomes + (if k.winner.Some? then [GrantOf(k.winner.value)] else []), ranked, w);
    }
  }

  lemma {:induction false} AllocateForShapes(
    s: Setup, at: Instant, t: Tables, outcomes: seq<Outcome>, cands: seq<Candidate>, customers: seq<CustomerId>,
    w: Window)
    requires AllShaped(outcomes, w) && AllInWindow(cands, w)
    ensures var (r, t') := AllocateFor(s, at, t, outcomes, cands, customers);
            AllShaped(r, w) && GrantsExtend(t, t', w)
    decreases |customers|
  {
    if customers != [] {
      CandidatesOfFacts(cands, customers[0]);
      RoundShapes(s, at, t, outcomes, CandidatesOf(cands, customers[0]), w);
      var r := CustomerRound(s, at, t, outcomes, CandidatesOf(cands, customers[0]));
      AllocateForShapes(s, at, r.1, r.0, cands, customers[1..], w);
    }
  }

  // ---- The hard filter ----

  /** Inside its own window a candidate can only be quiet in the evening, so it waits for the next day. */
  lemma VerdictDefersToNextDay(world: World, optOuts: OptOuts, t: Tables, c: Candidate, at: Instant, w: Window)
    requires InWindow(c, w)
    ensures var v := EvaluateAll(world, optOuts, t, c, at);
            && (v.Defer? ==> v.nextEligibleAt == WindowStartFor(w + 1))
            && (v.Admissible? ==> !IsQuietHours(c.sendAfter))
  {
  }

  lemma {:induction false} FilterAllShapes(world: World, optOuts: OptOuts, at: Instant, f: Filtered,
                                           cands: seq<Candidate>, w: Window)
    requires AllShaped(f.outcomes, w) && AllInWindow(cands, w) && AllInWindow(f.survivors, w)
    requires forall c :: c in f.survivors ==> !IsQuietHours(c.sendAfter)
    ensures var r := FilterAll(world, optOuts, at, f, cands);
            && AllShaped(r.outcomes, w) && AllInWindow(r.survivors, w)
            && (forall c :: c in r.survivors ==> !IsQuietHours(c.sendAfter))
            && r.tables == f.tables.(deniedRiskIds := r.tables.deniedRiskIds)
    decreases |cands|
  {
    if cands != [] {
      var c := cands[0];
      VerdictDefersToNextDay(world, optOuts, f.tables, c, at, w);
      var v := EvaluateAll(world, optOuts, f.tables, c, at);
      if v.Defer? {
        DeferralIsShaped(c, v.reason, None, w);
      }
      FilterAllShapes(world, optOuts, at, FilterOne(world, optOuts, at, f, c), cands[1..], w);
    }
  }

  lemma {:induction false} InOrderMembers(cands: seq<Candidate>, customers: seq<CustomerId>)
    ensures forall c :: c in InOrder(cands, customers) ==> c in cands
  {
    if customers != [] {
      CandidatesOfFacts(cands, customers[0]);
      InOrderMembers(cands, customers[1..]);
    }
  }

  /** Everything one window's mediation does to its candidates and to the list of grants. */
  lemma MediationShapes(s: Setup, optOuts: OptOuts, at: Instant, t: Tables, cands: seq<Candidate>, w: Window)
    requires AllInWindow(cands, w)
    ensures var (outcomes, t') := FilterAndAllocate(s, optOuts, at, t, cands);
            AllShaped(outcomes, w) && GrantsExtend(t, t', w)
  {
    InOrderMembers(cands, Customers(cands));
    FilterAllShapes(s.world, optOuts, at, Filtered(t, [], []), InOrder(cands, Customers(cands)), w);
    var f := FilterCandidates(s.world, optOuts, at, t, cands);
    AllocateForShapes(s, at, f.tables, [], f.survivors, Customers(f.survivors), w);
  }
}
