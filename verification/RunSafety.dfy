/** Every window keeps the run's invariant, so every whole run ends in it. */
module RunSafety {
  import opened Allocator
  import opened AllocatorProperties
  import opened Clock
  import opened Contracts
  import opened Ledger
  import opened LedgerInvariants
  import opened MediatedLedger
  import opened MediationOutcomes
  import opened Noninterference
  import opened RunExecution
  import opened RunInvariant
  import opened WindowEffects
  import opened WindowGrants
  import opened WindowLoop

  /** Each grant was sent with the customer's counts below both caps at its own sending time. */
  ghost predicate SpacedGrant(grants: seq<GrantRecord>, j: nat)
    requires j < |grants|
  {
    ClearOfCaps(grants, j, grants[j].grant.sendAfter)
  }

  ghost predicate AllSpaced(grants: seq<GrantRecord>) {
    forall j :: 0 <= j < |grants| ==> SpacedGrant(grants, j)
  }

  /** The contact was made on behalf of an action that had arrived before window `w`. */
  ghost predicate ActedOn(actions: seq<Action>, k: Contact, w: Window) {
    exists a :: a in actions && a.riskId == k.riskId && a.agentId == k.agentId && a.customerId == k.customerId
      && ArrivalWindow(a) < w
  }

  ghost predicate Carried(cfg: RunSetup, actions: seq<Action>, run: Run, w: Window) {
    UniqueRisks(run.carried)
    && forall c :: c in run.carried ==> Presentable(cfg, actions, run.contacts, c, w) && c.windowsDeferred > 0
  }

  ghost predicate RunInv(cfg: RunSetup, actions: seq<Action>, run: Run, w: Window) {
    && MidExecution(cfg, run, [], w)
    && GrantsBefore(run.tables, w)
    && AllSpaced(run.tables.grants)
    && Carried(cfg, actions, run, w)
    && (forall k :: k in run.contacts ==> ActedOn(actions, k, w))
  }

  // ---- The candidates presented in a window ----

  lemma PresentedTogether(cfg: RunSetup, actions: seq<Action>, run: Run, w: Window)
    requires ValidSetup(cfg, actions) && Carried(cfg, actions, run, w)
    requires forall k :: k in run.contacts ==> ActedOn(actions, k, w)
    ensures TakeIn(cfg, NewActions(actions, w)).Ok?
    ensures var cands := run.carried + TakeIn(cfg, NewActions(actions, w)).value.candidates;
            UniqueRisks(cands) && forall c :: c in cands ==> Presentable(cfg, actions, run.contacts, c, w)
  {
    NewActionsAreDistinct(actions, w);
    IntakeSucceeds(cfg, actions, NewActions(actions, w), w);
    var arrived := TakeIn(cfg, NewActions(actions, w)).value.candidates;
    forall c | c in arrived ensures Presentable(cfg, actions, run.contacts, c, w) {
      FreshIsPresentable(cfg, actions, run.contacts, c, w);
    }
    forall x, y | x in run.carried && y in arrived ensures x.item.riskId != y.item.riskId {
      assert Presentable(cfg, actions, run.contacts, x, w);
      var a :| a in actions && StemsFrom(cfg, a, x, w);
      var b :| b in actions && StemsFrom(cfg, b, y, w);
    }
    UniqueConcat(run.carried, arrived);
  }

  lemma FreshIsPresentable(cfg: RunSetup, actions: seq<Action>, contacts: seq<Contact>, c: Candidate, w: Window)
    requires DistinctActions(actions) && Fresh(cfg, NewActions(actions, w), c, w)
    requires forall k :: k in contacts ==> ActedOn(actions, k, w)
    ensures Presentable(cfg, actions, contacts, c, w)
  {
    NewActionsAreDistinct(actions, w);
    var a :| a in NewActions(actions, w) && StemsFrom(cfg, a, c, w);
    assert a in actions && StemsFrom(cfg, a, c, w);
    forall i | 0 <= i < |contacts| ensures contacts[i].riskId != c.item.riskId {
      assert contacts[i] in contacts;
      var b :| b in actions && b.riskId == contacts[i].riskId && b.agentId == contacts[i].agentId
               && b.customerId == contacts[i].customerId && ArrivalWindow(b) < w;
    }
  }

  /** Nobody presented has been granted before. */
  lemma PresentedAreUnissued(cfg: RunSetup, actions: seq<Action>, run: Run, cands: seq<Candidate>, w: Window)
    requires InjectiveIds(cfg) && UniqueRisks(cands) && MidExecution(cfg, run, [], w)
    requires forall c :: c in cands ==> Presentable(cfg, actions, run.contacts, c, w)
    ensures AllUnissued(run.tables.grants, cands) && DistinctRequests(cands) && AllSound(cands) && AllInWindow(cands, w)
  {
    assert |run.tables.grants| == |run.contacts|;
    forall c | c in cands ensures Unissued(run.tables.grants, c.request.requestId) {
      forall r | r in run.tables.grants ensures r.requestId != c.request.requestId {
        var i :| 0 <= i < |run.tables.grants| && run.tables.grants[i] == r;
        assert ContactOf(cfg, run.contacts[i], r);
        assert run.contacts[i].riskId != c.item.riskId;
      }
    }
    forall a, b | a in cands && b in cands && a.request.requestId == b.request.requestId ensures a == b {
      assert Identified(cfg, a) && Identified(cfg, b);
    }
  }

  // ---- Mediation ----

  lemma {:induction false} CountSinceMonotone(grants: seq<GrantRecord>, customer: CustomerId, early: Instant,
                                              late: Instant)
    requires early <= late
    ensures CountSince(grants, customer, late) <= CountSince(grants, customer, early)
  {
    if grants != [] {
      CountSinceMonotone(grants[..|grants| - 1], customer, early, late);
    }
  }

  /** Confirming grants does not change what they count for. */
  lemma {:induction false} CountSinceSettling(before: seq<GrantRecord>, after: seq<GrantRecord>, customer: CustomerId,
                                              cutoff: Instant)
    requires Settling(before, after)
    requires forall i :: 0 <= i < |before| ==> CapacityConsuming(before[i].grant.state)
    ensures CountSince(after, customer, cutoff) == CountSince(before, customer, cutoff)
  {
    if before != [] {
      var n := |before| - 1;
      CountSinceSettling(before[..n], after[..n], customer, cutoff);
    }
  }

  lemma SpacedAfterSettling(before: seq<GrantRecord>, after: seq<GrantRecord>)
    requires Settling(before, after) && AllSpaced(before)
    requires forall i :: 0 <= i < |before| ==> CapacityConsuming(before[i].grant.state)
    ensures AllSpaced(after)
  {
    forall j | 0 <= j < |after| ensures SpacedGrant(after, j) {
      assert SpacedGrant(before, j);
      var customer, at := after[j].customerId, after[j].grant.sendAfter;
      CountSinceSettling(before[..j], after[..j], customer, at - DAY);
      CountSinceSettling(before[..j], after[..j], customer, at - 7 * DAY);
    }
  }

  /** The window opens no later than its candidates are sent, so the guard is at least as strict as the checker. */
  lemma NewGrantsAreSpaced(was: seq<GrantRecord>, grants: seq<GrantRecord>, at: Instant)
    requires was <= grants && AllSpaced(was) && AllClearFrom(grants, |was|, at)
    requires forall j :: |was| <= j < |grants| ==> grants[j].grant.sendAfter >= at
    ensures AllSpaced(grants)
  {
    forall j | 0 <= j < |grants| ensures SpacedGrant(grants, j) {
      if j < |was| {
        assert SpacedGrant(was, j);
        assert grants[..j] == was[..j];
      } else {
        assert ClearOfCaps(grants, j, at);
        var customer, sent := grants[j].customerId, grants[j].grant.sendAfter;
        CountSinceMonotone(grants[..j], customer, at - DAY, sent - DAY);
        CountSinceMonotone(grants[..j], customer, at - 7 * DAY, sent - 7 * DAY);
      }
    }
  }

  lemma {:induction false} RecordsComeFromOutcomes(outcomes: seq<Outcome>, w: Window)
    requires AllFair(outcomes) && AllShaped(outcomes, w)
    ensures forall r :: r in Records(outcomes) ==> r.grant.state.Reserved? && r.grant.sendAfter >= WindowStartFor(w)
  {
    if outcomes != [] {
      var n := |outcomes| - 1;
      RecordsComeFromOutcomes(outcomes[..n], w);
      assert outcomes[n] in outcomes;
      SendableBand(outcomes[n].candidate.sendAfter);
    }
  }

  /** The run and the outcomes once a window has been mediated but nothing executed. */
  ghost predicate Mediated(cfg: RunSetup, actions: seq<Action>, run: Run, mediated: Run, outcomes: seq<Outcome>,
                           cands: seq<Candidate>, w: Window)
  {
    && MidExecution(cfg, mediated, outcomes, w)
    && mediated.contacts == run.contacts
    && mediated.carried == RescheduledOf(outcomes)
    && GrantsBefore(mediated.tables, w + 1)
    && AllSpaced(mediated.tables.grants)
    && (forall g :: g in mediated.tables.grants ==> CapacityConsuming(g.grant.state))
    && multiset(Subjects(outcomes)) == multiset(cands)
    && UniqueRisks(cands)
    && (forall c :: c in cands ==> Presentable(cfg, actions, run.contacts, c, w))
  }

  lemma MediateKeeps(cfg: RunSetup, actions: seq<Action>, run: Run, w: Window)
    requires ValidSetup(cfg, actions) && RunInv(cfg, actions, run, w)
    ensures TakeIn(cfg, NewActions(actions, w)).Ok?
    ensures var intake := TakeIn(cfg, NewActions(actions, w)).value;
            var (outcomes, mediated) := MediateWindow(cfg, run, w, intake);
            Mediated(cfg, actions, run, mediated, outcomes, run.carried + intake.candidates, w)
  {
    PresentedTogether(cfg, actions, run, w);
    var intake := TakeIn(cfg, NewActions(actions, w)).value;
    var cands, at := run.carried + intake.candidates, WindowStartFor(w);
    PresentedAreUnissued(cfg, actions, run, cands, w);
    var (outcomes, mediated) := MediateWindow(cfg, run, w, intake);
    MediationAccounts(cfg.setup, cfg.optOuts, at, run.tables, cands);
    MediationShapes(cfg.setup, cfg.optOuts, at, run.tables, cands, w);
    MediationTallies(cfg.setup, cfg.optOuts, at, run.tables, cands);
    MediationKeepsHealthy(cfg.setup, cfg.optOuts, at, run.tables, cands, Spends(cfg, run.contacts));
    UniqueSubjects(outcomes, cands);
    ReadyToExecute(cfg, actions, run, mediated, outcomes, cands, w);
    RecordsComeFromOutcomes(outcomes, w);
    TalliedGrants(cfg, run, mediated, outcomes, w);
  }

  lemma ReadyToExecute(cfg: RunSetup, actions: seq<Action>, run: Run, mediated: Run, outcomes: seq<Outcome>,
                       cands: seq<Candidate>, w: Window)
    requires MidExecution(cfg, run, [], w) && mediated.contacts == run.contacts
    requires mediated.tables.grants == run.tables.grants + Records(outcomes)
    requires Healthy(cfg.setup.world, mediated.tables, Spends(cfg, run.contacts))
    requires AllFair(outcomes) && AllShaped(outcomes, w) && DistinctSubjects(outcomes)
    requires forall o :: o in outcomes ==> o.candidate in cands
    requires forall o :: o in outcomes && o.kind.Granted? ==> Contactable(cfg.setup.world, cfg.optOuts, o.candidate)
    requires forall c :: c in cands ==> Presentable(cfg, actions, run.contacts, c, w)
    ensures MidExecution(cfg, mediated, outcomes, w)
  {
    var n := |run.contacts|;
    assert mediated.tables.grants[..n] == run.tables.grants;
    forall o | o in outcomes ensures Executable(cfg, o, w) && !Observed(mediated.contacts, o.candidate.item.riskId) {
      assert Presentable(cfg, actions, run.contacts, o.candidate, w);
    }
    forall i | 0 <= i < n
      ensures ContactOf(cfg, mediated.contacts[i], mediated.tables.grants[i]) && Permitted(cfg, mediated.contacts[i])
    {
      assert mediated.tables.grants[i] == run.tables.grants[i];
    }
  }

  lemma NewGrantsAreActive(cfg: RunSetup, run: Run, mediated: Run, outcomes: seq<Outcome>, w: Window)
    requires MidExecution(cfg, run, [], w)
    requires mediated.tables.grants == run.tables.grants + Records(outcomes)
    requires forall r :: r in Records(outcomes) ==> r.grant.state.Reserved?
    ensures forall g :: g in mediated.tables.grants ==> CapacityConsuming(g.grant.state)
  {
    var was, grants := run.tables.grants, mediated.tables.grants;
    forall g | g in grants ensures CapacityConsuming(g.grant.state) {
      var i :| 0 <= i < |grants| && grants[i] == g;
      if i < |was| {
        assert ContactOf(cfg, run.contacts[i], was[i]);
      } else {
        assert g in Records(outcomes);
      }
    }
  }

  lemma TalliedGrants(cfg: RunSetup, run: Run, mediated: Run, outcomes: seq<Outcome>, w: Window)
    requires MidExecution(cfg, run, [], w) && AllSpaced(run.tables.grants) && GrantsBefore(run.tables, w)
    requires Tally(run.tables.grants, mediated.tables.grants, outcomes, WindowStartFor(w))
    requires GrantsExtend(run.tables, mediated.tables, w)
    requires forall r :: r in Records(outcomes) ==> r.grant.state.Reserved? && r.grant.sendAfter >= WindowStartFor(w)
    ensures AllSpaced(mediated.tables.grants) && GrantsBefore(mediated.tables, w + 1)
    ensures forall g :: g in mediated.tables.grants ==> CapacityConsuming(g.grant.state)
  {
    var was, grants := run.tables.grants, mediated.tables.grants;
    forall j | |was| <= j < |grants| ensures grants[j].grant.sendAfter >= WindowStartFor(w) {
      assert grants[j] == Records(outcomes)[j - |was|];
    }
    NewGrantsAreSpaced(was, grants, WindowStartFor(w));
    NewGrantsAreActive(cfg, run, mediated, outcomes, w);
  }

  // ---- Carrying forward ----

  lemma {:induction false} RescheduledMembers(outcomes: seq<Outcome>, w: Window)
    requires AllShaped(outcomes, w)
    ensures forall c :: c in RescheduledOf(outcomes) <==>
              exists i :: 0 <= i < |outcomes| && outcomes[i].kind.Deferred?
                && c == CarriedTo(outcomes[i].candidate, w + 1)
  {
    if outcomes != [] {
      RescheduledMembers(outcomes[1..], w);
      assert outcomes[0] in outcomes;
      forall c ensures c in RescheduledOf(outcomes) <==>
        exists i :: 0 <= i < |outcomes| && outcomes[i].kind.Deferred? && c == CarriedTo(outcomes[i].candidate, w + 1)
      {
        if exists i :: 0 <= i < |outcomes| && outcomes[i].kind.Deferred?
             && c == CarriedTo(outcomes[i].candidate, w + 1) {
          var i :| 0 <= i < |outcomes| && outcomes[i].kind.Deferred? && c == CarriedTo(outcomes[i].candidate, w + 1);
          assert i > 0 ==> outcomes[1..][i - 1] == outcomes[i];
        }
      }
    }
  }

  lemma {:induction false} RescheduledAreUnique(outcomes: seq<Outcome>, w: Window)
    requires AllShaped(outcomes, w) && DistinctSubjects(outcomes)
    ensures UniqueRisks(RescheduledOf(outcomes))
  {
    if outcomes != [] {
      RescheduledAreUnique(outcomes[1..], w);
      RescheduledMembers(outcomes[1..], w);
      assert Shaped(outcomes[0], w);
      if outcomes[0].kind.Deferred? {
        forall c | c in RescheduledOf(outcomes[1..]) ensures c.item.riskId != outcomes[0].candidate.item.riskId {
          var i :| 0 <= i < |outcomes[1..]| && outcomes[1..][i].kind.Deferred?
              && c == CarriedTo(outcomes[1..][i].candidate, w + 1);
          assert outcomes[i + 1] == outcomes[1..][i];
        }
        UniqueConcat([CarriedTo(outcomes[0].candidate, w + 1)], RescheduledOf(outcomes[1..]));
      }
    }
  }

  lemma CarriedIsPresentable(
    cfg: RunSetup, actions: seq<Action>, before: seq<Contact>, after: seq<Contact>, outcomes: seq<Outcome>, i: nat,
    w: Window)
    requires i < |outcomes| && outcomes[i].kind.Deferred? && Shaped(outcomes[i], w) && DistinctSubjects(outcomes)
    requires Presentable(cfg, actions, before, outcomes[i].candidate, w)
    requires forall risk :: Observed(after, risk) <==> Observed(before, risk) || GrantedAbout(outcomes, risk)
    ensures var c := CarriedTo(outcomes[i].candidate, w + 1);
            Presentable(cfg, actions, after, c, w + 1) && c.windowsDeferred > 0
  {
    var c, c' := outcomes[i].candidate, CarriedTo(outcomes[i].candidate, w + 1);
    WindowOfStart(w + 1);
    var a :| a in actions && StemsFrom(cfg, a, c, w);
    assert StemsFrom(cfg, a, c', w + 1);
    forall j | 0 <= j < |outcomes| && outcomes[j].kind.Granted?
      ensures outcomes[j].candidate.item.riskId != c.item.riskId
    {
      assert i != j;
    }
  }

  lemma CarryForward(cfg: RunSetup, actions: seq<Action>, run: Run, mediated: Run, done: Run, outcomes: seq<Outcome>,
                     cands: seq<Candidate>, w: Window)
    requires Mediated(cfg, actions, run, mediated, outcomes, cands, w)
    requires ExecutedTo(mediated, done, outcomes)
    ensures Carried(cfg, actions, done, w + 1)
  {
    UniqueSubjects(outcomes, cands);
    assert AllShaped(outcomes, w) by {
      forall o | o in outcomes ensures Shaped(o, w) {
        assert Executable(cfg, o, w);
      }
    }
    RescheduledAreUnique(outcomes, w);
    RescheduledMembers(outcomes, w);
    forall c | c in done.carried ensures Presentable(cfg, actions, done.contacts, c, w + 1) && c.windowsDeferred > 0 {
      var i :| 0 <= i < |outcomes| && outcomes[i].kind.Deferred? && c == CarriedTo(outcomes[i].candidate, w + 1);
      assert outcomes[i] in outcomes;
      CarriedIsPresentable(cfg, actions, mediated.contacts, done.contacts, outcomes, i, w);
    }
  }

  lemma ActedOnNow(cfg: RunSetup, actions: seq<Action>, run: Run, mediated: Run, done: Run, outcomes: seq<Outcome>,
                   cands: seq<Candidate>, w: Window)
    requires DistinctActions(actions) && InjectiveIds(cfg)
    requires Mediated(cfg, actions, run, mediated, outcomes, cands, w)
    requires MidExecution(cfg, done, [], w) && ExecutedTo(mediated, done, outcomes)
    requires forall k :: k in run.contacts ==> ActedOn(actions, k, w)
    ensures forall k :: k in done.contacts ==> ActedOn(actions, k, w + 1)
  {
    forall i | 0 <= i < |done.contacts| ensures ActedOn(actions, done.contacts[i], w + 1) {
      var k := done.contacts[i];
      if i < |run.contacts| {
        assert run.contacts[i] == k && k in run.contacts;
        assert ActedOn(actions, k, w);
        var a :| a in actions && a.riskId == k.riskId && a.agentId == k.agentId && a.customerId == k.customerId
            && ArrivalWindow(a) < w;
      } else {
        NewContactStems(cfg, actions, run, mediated, done, outcomes, cands, i, w);
      }
    }
  }

  /** A contact made in this window stems from the action its candidate stems from. */
  lemma NewContactStems(cfg: RunSetup, actions: seq<Action>, run: Run, mediated: Run, done: Run, outcomes: seq<Outcome>,
                        cands: seq<Candidate>, i: nat, w: Window)
    requires InjectiveIds(cfg) && Mediated(cfg, actions, run, mediated, outcomes, cands, w)
    requires MidExecution(cfg, done, [], w) && ExecutedTo(mediated, done, outcomes)
    requires |run.contacts| <= i < |done.contacts|
    ensures ActedOn(actions, done.contacts[i], w + 1)
  {
    var k, g := done.contacts[i], mediated.tables.grants[i];
    assert ContactOf(cfg, k, done.tables.grants[i]);
    assert g in Records(outcomes) by {
      assert g == (mediated.tables.grants[..|run.contacts|] + Records(outcomes))[i];
    }
    var o := RecordSource(outcomes, g);
    UniqueSubjects(outcomes, cands);
    assert Presentable(cfg, actions, run.contacts, o.candidate, w);
    var a :| a in actions && StemsFrom(cfg, a, o.candidate, w);
    assert a.riskId == k.riskId && a.agentId == k.agentId;
  }

  lemma {:induction false} RecordSource(outcomes: seq<Outcome>, g: GrantRecord) returns (o: Outcome)
    requires g in Records(outcomes)
    ensures o in outcomes && o.kind.Granted? && o.grant.Some? && g == RecordOf(o)[0]
  {
    var n := |outcomes| - 1;
    if g in RecordOf(outcomes[n]) {
      o := outcomes[n];
    } else {
      o := RecordSource(outcomes[..n], g);
    }
  }

  // ---- A window, a run ----

  /** What one window did, in a form the accounts can be drawn from. */
  ghost predicate Worked(cfg: RunSetup, actions: seq<Action>, run: Run, done: Run, outcomes: seq<Outcome>,
                         cands: seq<Candidate>, w: Window)
  {
    && UniqueRisks(cands) && multiset(Subjects(outcomes)) == multiset(cands)
    && (forall o :: o in outcomes ==> Shaped(o, w))
    && done.carried == RescheduledOf(outcomes)
    && (forall risk :: Observed(done.contacts, risk) <==> Observed(run.contacts, risk) || GrantedAbout(outcomes, risk))
  }

  lemma WindowKeepsInvariant(cfg: RunSetup, oracle: Oracle, actions: seq<Action>, run: Run, w: Window)
    requires ValidSetup(cfg, actions) && RunInv(cfg, actions, run, w)
    ensures var r := RunWindow(cfg, oracle, run, w, actions);
            r.Ok? && RunInv(cfg, actions, r.value, w + 1)
    ensures var intake := TakeIn(cfg, NewActions(actions, w));
            && intake.Ok?
            && var r, cands := RunWindow(cfg, oracle, run, w, actions).value, run.carried + intake.value.candidates;
            && var outcomes := MediateWindow(cfg, run, w, intake.value).0;
            && Worked(cfg, actions, run, r, outcomes, cands, w)
            && r.decisions == run.decisions + intake.value.decisions + DecisionsOf(outcomes)
  {
    MediateKeeps(cfg, actions, run, w);
    var intake := TakeIn(cfg, NewActions(actions, w)).value;
    var (outcomes, mediated) := MediateWindow(cfg, run, w, intake);
    ExecuteAll(cfg, oracle, mediated, outcomes, w);
    WindowCloses(cfg, actions, run, mediated, ExecuteGrants(cfg, oracle, mediated, outcomes).value, outcomes,
                 run.carried + intake.candidates, w);
  }

  lemma SpacedAfterWindow(cfg: RunSetup, actions: seq<Action>, run: Run, mediated: Run, done: Run,
                          outcomes: seq<Outcome>, cands: seq<Candidate>, w: Window)
    requires Mediated(cfg, actions, run, mediated, outcomes, cands, w) && ExecutedTo(mediated, done, outcomes)
    ensures AllSpaced(done.tables.grants)
  {
    forall i | 0 <= i < |mediated.tables.grants| ensures CapacityConsuming(mediated.tables.grants[i].grant.state) {
      assert mediated.tables.grants[i] in mediated.tables.grants;
    }
    SpacedAfterSettling(mediated.tables.grants, done.tables.grants);
  }

  lemma WorkedAfterWindow(cfg: RunSetup, actions: seq<Action>, run: Run, mediated: Run, done: Run,
                          outcomes: seq<Outcome>, cands: seq<Candidate>, w: Window)
    requires Mediated(cfg, actions, run, mediated, outcomes, cands, w) && ExecutedTo(mediated, done, outcomes)
    ensures Worked(cfg, actions, run, done, outcomes, cands, w)
  {
    forall o | o in outcomes ensures Shaped(o, w) {
      assert Executable(cfg, o, w);
    }
  }

  lemma WindowCloses(cfg: RunSetup, actions: seq<Action>, run: Run, mediated: Run, done: Run, outcomes: seq<Outcome>,
                     cands: seq<Candidate>, w: Window)
    requires ValidSetup(cfg, actions) && Mediated(cfg, actions, run, mediated, outcomes, cands, w)
    requires MidExecution(cfg, done, [], w) && ExecutedTo(mediated, done, outcomes)
    requires forall k :: k in run.contacts ==> ActedOn(actions, k, w)
    ensures RunInv(cfg, actions, done, w + 1) && Worked(cfg, actions, run, done, outcomes, cands, w)
  {
    CarryForward(cfg, actions, run, mediated, done, outcomes, cands, w);
    ActedOnNow(cfg, actions, run, mediated, done, outcomes, cands, w);
    SpacedAfterWindow(cfg, actions, run, mediated, done, outcomes, cands, w);
    NothingLeft(cfg, done, w);
    WorkedAfterWindow(cfg, actions, run, mediated, done, outcomes, cands, w);
  }

  lemma NothingLeft(cfg: RunSetup, run: Run, w: Window)
    requires MidExecution(cfg, run, [], w)
    ensures MidExecution(cfg, run, [], w + 1)
  {
  }

  lemma {:induction false} WindowsKeepInvariant(cfg: RunSetup, oracle: Oracle, actions: seq<Action>, run: Run,
                                                w: Window, end: Window)
    requires ValidSetup(cfg, actions) && RunInv(cfg, actions, run, w) && w <= end
    ensures var r := RunWindows(cfg, oracle, run, w, end, actions);
            r.Ok? && RunInv(cfg, actions, r.value, end)
    decreases end - w
  {
    if w < end {
      WindowKeepsInvariant(cfg, oracle, actions, run, w);
      WindowsKeepInvariant(cfg, oracle, actions, RunWindow(cfg, oracle, run, w, actions).value, w + 1, end);
    }
  }

  lemma EmptyLedgerIsSound(world: World)
    requires FundedWorld(world)
    ensures Coherent(EMPTY) && Conserved(world, EMPTY, map[]) && Solvent(world, EMPTY)
  {
    EveryReachableLedgerIsConserved(world, []);
    EveryReachableLedgerIsSolvent(world, []);
  }

  lemma NothingDoneYet(cfg: RunSetup, actions: seq<Action>, run: Run, w: Window)
    requires run.contacts == [] && run.carried == [] && run.tables.grants == []
    requires Healthy(cfg.setup.world, run.tables, Spends(cfg, run.contacts))
    ensures RunInv(cfg, actions, run, w)
  {
  }

  lemma InitialRun(cfg: RunSetup, actions: seq<Action>, w: Window)
    requires FundedWorld(cfg.setup.world)
    ensures RunInv(cfg, actions, Initial(), w)
  {
    hide RunInv;
    var run := Initial();
    EmptyLedgerIsSound(cfg.setup.world);
    assert Spends(cfg, run.contacts) == map[];
    NothingDoneYet(cfg, actions, run, w);
  }

  /** No run fails, and every run ends with all the invariants. */
  lemma RunsEndInInvariant(cfg: RunSetup, oracle: Oracle, actions: seq<Action>)
    requires ValidSetup(cfg, actions)
    ensures var r := RunLoop(cfg, oracle, actions);
            && r.Ok?
            && RunInv(cfg, actions, r.value, if actions == [] then 0 else LastWindow(actions) + 1)
  {
    if actions == [] {
      InitialRun(cfg, actions, 0);
    } else {
      InitialRun(cfg, actions, FirstWindow(actions));
      ArrivalBounds(actions);
      WindowsKeepInvariant(cfg, oracle, actions, Initial(), FirstWindow(actions), LastWindow(actions) + 1);
    }
  }
}
