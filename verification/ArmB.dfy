/**
 * The mediated runner as the program runs it (sim/arm_b.py): the day-by-day loop over the ledger and
 * the simulated world, and the natural outcomes of everything that was never contacted.
 */
module ArmB {
  import opened Allocator
  import opened Clock
  import opened Contracts
  import opened Environment
  import opened Ledger
  import MediationService
  import opened RunAccounts
  import opened RunExecution
  import opened RunInvariant
  import opened Store
  import opened WindowLoop
  import opened Wrappers

  /** Executes, observes and confirms every granted outcome of a window, in order. */
  method ExecuteGrants(cfg: RunSetup, ledger: InMemoryMediationLedger, env: Environment, outcomes: seq<Outcome>,
                       ghost carried: seq<Candidate>, ghost decisions: seq<Decision>)
    returns (error: Option<RunError>)
    requires cfg.setup.world == ledger.world && env.Valid() && env.naturals == []
    modifies ledger, env
    ensures env.Valid() && env.naturals == []
    ensures var r := WindowLoop.ExecuteGrants(cfg, env.recovers,
                                              Run(old(ledger.View()), carried, decisions, old(env.contacts)), outcomes);
            if error.Some? then r == Err(error.value) else r == Ok(Run(ledger.View(), carried, decisions, env.contacts))
  {
    var i := 0;
    assert outcomes[0..] == outcomes;
    while i < |outcomes|
      invariant 0 <= i <= |outcomes| && env.Valid() && env.naturals == []
      invariant WindowLoop.ExecuteGrants(cfg, env.recovers, Run(ledger.View(), carried, decisions, env.contacts),
                                         outcomes[i..])
                == WindowLoop.ExecuteGrants(cfg, env.recovers,
                                            Run(old(ledger.View()), carried, decisions, old(env.contacts)), outcomes)
    {
      var o := outcomes[i];
      assert outcomes[i..][0] == o && outcomes[i..][1..] == outcomes[i + 1..];
      if o.grant.Some? && o.effectiveBps.Some? {
        var grant := o.grant.value;
        assert forall risk :: !Resolved(env.naturals, risk);
        var failed := ledger.Transition(grant.grantId, Execute, grant.sendAfter);
        if failed.Some? {
          return Some(LifecycleFailed(failed.value));
        }
        var observed := env.Observe(o.candidate, grant, o.effectiveBps.value);
        if observed.Err? {
          return Some(observed.error);
        }
        failed := ledger.Transition(grant.grantId, Confirm(observed.value.incentivePaise), grant.sendAfter);
        if failed.Some? {
          return Some(LifecycleFailed(failed.value));
        }
      }
      i := i + 1;
    }
    return None;
  }

  /** One window: mediate whoever arrives or is carried over, then execute what was granted. */
  method RunWindow(cfg: RunSetup, ledger: InMemoryMediationLedger, env: Environment, window: Window,
                   actions: seq<Action>,
                   carried: seq<Candidate>, decisions: seq<Decision>)
    returns (error: Option<RunError>, carried': seq<Candidate>, decisions': seq<Decision>)
    requires cfg.setup.world == ledger.world && env.Valid() && env.naturals == []
    modifies ledger, env
    ensures env.Valid() && env.naturals == []
    ensures var r := WindowLoop.RunWindow(cfg, env.recovers,
                                          Run(old(ledger.View()), carried, decisions, old(env.contacts)), window,
                                          actions);
            if error.Some? then r == Err(error.value)
              else r == Ok(Run(ledger.View(), carried', decisions', env.contacts))
  {
    carried', decisions' := carried, decisions;
    var intake := MediationService.TakeIn(cfg, NewActions(actions, window));
    if intake.Err? {
      error := Some(intake.error);
      return;
    }
    var outcomes := MediationService.FilterAndAllocate(
      cfg.setup, cfg.optOuts, ledger, WindowStartFor(window), carried + intake.value.candidates);
    var decided, rescheduled := MediationService.Conclude(outcomes);
    carried', decisions' := rescheduled, decisions + intake.value.decisions + decided;
    error := ExecuteGrants(cfg, ledger, env, outcomes, carried', decisions');
  }

  /** From this state on, the remaining windows end in `target`. */
  ghost predicate LeadsTo(cfg: RunSetup, oracle: Oracle, run: Run, w: Window, end: Window, actions: seq<Action>,
                          target: Result<Run, RunError>)
  {
    WindowLoop.RunWindows(cfg, oracle, run, w, end, actions) == target
  }

  /** `leads` says of a state at the start of a day what LeadsTo says. */
  ghost predicate Means(leads: (Run, Window) -> bool, cfg: RunSetup, oracle: Oracle, end: Window, actions: seq<Action>,
                        target: Result<Run, RunError>)
  {
    forall run, w {:trigger LeadsTo(cfg, oracle, run, w, end, actions, target)} ::
      leads(run, w) <==> LeadsTo(cfg, oracle, run, w, end, actions, target)
  }

  lemma LeadsOn(leads: (Run, Window) -> bool, cfg: RunSetup, oracle: Oracle, run: Run, w: Window, end: Window,
                actions: seq<Action>, target: Result<Run, RunError>)
    requires Means(leads, cfg, oracle, end, actions, target) && w < end && leads(run, w)
    ensures var first := WindowLoop.RunWindow(cfg, oracle, run, w, actions);
            if first.Err? then target == Err(first.error) else leads(first.value, w + 1)
  {
    assert LeadsTo(cfg, oracle, run, w, end, actions, target);
    var first := WindowLoop.RunWindow(cfg, oracle, run, w, actions);
    assert first.Ok? ==> LeadsTo(cfg, oracle, first.value, w + 1, end, actions, target);
  }

  lemma LeadsToEnd(leads: (Run, Window) -> bool, cfg: RunSetup, oracle: Oracle, run: Run, w: Window, end: Window,
                   actions: seq<Action>, target: Result<Run, RunError>)
    requires Means(leads, cfg, oracle, end, actions, target) && w >= end && leads(run, w)
    ensures target == Ok(run)
  {
    assert LeadsTo(cfg, oracle, run, w, end, actions, target);
  }

  /** One window of a run that ends in `target`: what it leaves still leads there. */
  method Advance(cfg: RunSetup, ledger: InMemoryMediationLedger, env: Environment, window: Window, ghost end: Window,
                 actions: seq<Action>,
                 carried: seq<Candidate>, decisions: seq<Decision>, ghost target: Result<Run, RunError>,
                 ghost leads: (Run, Window) -> bool)
    returns (error: Option<RunError>, carried': seq<Candidate>, decisions': seq<Decision>)
    requires cfg.setup.world == ledger.world && env.Valid() && env.naturals == [] && window < end
    requires Means(leads, cfg, env.recovers, end, actions, target)
    requires leads(Run(ledger.View(), carried, decisions, env.contacts), window)
    modifies ledger, env
    ensures env.Valid() && env.naturals == []
    ensures if error.Some? then target == Err(error.value)
            else leads(Run(ledger.View(), carried', decisions', env.contacts), window + 1)
  {
    LeadsOn(leads, cfg, env.recovers, Run(ledger.View(), carried, decisions, env.contacts), window, end, actions,
            target);
    error, carried', decisions' := RunWindow(cfg, ledger, env, window, actions, carried, decisions);
  }

  /** The windows up to `end`, from a given day. */
  method RunRemaining(cfg: RunSetup, ledger: InMemoryMediationLedger, env: Environment, first: Window, end: Window,
                      actions: seq<Action>,
                      ghost target: Result<Run, RunError>, ghost leads: (Run, Window) -> bool)
    returns (error: Option<RunError>, carried: seq<Candidate>, decisions: seq<Decision>)
    requires cfg.setup.world == ledger.world && env.Valid() && env.naturals == []
    requires Means(leads, cfg, env.recovers, end, actions, target)
    requires leads(Run(ledger.View(), [], [], env.contacts), first)
    modifies ledger, env
    ensures env.Valid() && env.naturals == []
    ensures target == if error.Some? then Err(error.value) else Ok(Run(ledger.View(), carried, decisions, env.contacts))
  {
    carried, decisions := [], [];
    var window := first;
    while window < end
      invariant env.Valid() && env.naturals == []
      invariant leads(Run(ledger.View(), carried, decisions, env.contacts), window)
      decreases end - window
    {
      error, carried, decisions := Advance(cfg, ledger, env, window, end, actions, carried, decisions, target, leads);
      if error.Some? {
        return;
      }
      window := window + 1;
    }
    LeadsToEnd(leads, cfg, env.recovers, Run(ledger.View(), carried, decisions, env.contacts), window, end, actions,
               target);
    error := None;
  }

  /** One IST day after another, carrying deferred candidates forward. */
  method RunWindows(cfg: RunSetup, ledger: InMemoryMediationLedger, env: Environment, first: Window, end: Window,
                    actions: seq<Action>)
    returns (error: Option<RunError>, carried: seq<Candidate>, decisions: seq<Decision>)
    requires cfg.setup.world == ledger.world && env.Valid() && env.naturals == []
    modifies ledger, env
    ensures env.Valid() && env.naturals == []
    ensures WindowLoop.RunWindows(cfg, env.recovers, Run(old(ledger.View()), [], [], old(env.contacts)), first, end,
                                  actions)
            == if error.Some? then Err(error.value) else Ok(Run(ledger.View(), carried, decisions, env.contacts))
  {
    ghost var target := WindowLoop.RunWindows(cfg, env.recovers, Run(ledger.View(), [], [], env.contacts), first, end,
                                              actions);
    ghost var oracle := env.recovers;
    ghost var leads: (Run, Window) -> bool := (run: Run, w: Window) =>
      LeadsTo(cfg, oracle, run, w, end, actions, target);
    error, carried, decisions := RunRemaining(cfg, ledger, env, first, end, actions, target, leads);
  }

  /** The whole run: from the first arrival to eight days past the last. */
  method RunWindowLoop(cfg: RunSetup, actions: seq<Action>, ledger: InMemoryMediationLedger, env: Environment)
    returns (result: Result<(seq<Contact>, seq<Decision>), RunError>)
    requires cfg.setup.world == ledger.world && ledger.View() == EMPTY
    requires env.Valid() && env.contacts == [] && env.naturals == []
    modifies ledger, env
    ensures env.Valid() && env.naturals == []
    ensures var run := RunLoop(cfg, env.recovers, actions);
            if result.Err? then run == Err(result.error)
            else run.Ok? && result.value == (run.value.contacts, run.value.decisions)
                 && ledger.View() == run.value.tables && env.contacts == run.value.contacts
  {
    if actions == [] {
      return Ok(([], []));
    }
    var error, carried, decisions := RunWindows(cfg, ledger, env, FirstWindow(actions), LastWindow(actions) + 1,
                                                actions);
    if error.Some? {
      return Err(error.value);
    }
    return Ok((env.contacts, decisions));
  }

  // ---- Natural outcomes ----

  type OwnedItem = (RiskItem, CustomerId)

  function Ids(items: seq<OwnedItem>): set<RiskId> {
    if items == [] then {} else Ids(items[..|items| - 1]) + {items[|items| - 1].0.riskId}
  }

  /** The risk items as the dictionary's sorted keys list them. */
  ghost predicate InIdOrder(items: seq<OwnedItem>) {
    forall i, j :: 0 <= i < j < |items| ==> items[i].0.riskId < items[j].0.riskId
  }

  lemma {:induction false} IdsBelow(items: seq<OwnedItem>, n: nat)
    requires InIdOrder(items) && n < |items|
    ensures forall id :: id in Ids(items[..n]) ==> id < items[n].0.riskId
  {
    if n > 0 {
      assert items[..n][..n - 1] == items[..n - 1];
      IdsBelow(items, n - 1);
    }
  }

  lemma IdsStep(items: seq<OwnedItem>, i: nat, contacted: set<RiskId>)
    requires InIdOrder(items) && i < |items|
    ensures var id, done := items[i].0.riskId, Ids(items[..i]) - contacted;
            && id !in done
            && Ids(items[..i + 1]) - contacted == (if id in contacted then done else done + {id})
  {
    IdsBelow(items, i);
    assert items[..i + 1][..i] == items[..i];
  }

  /** Resolves one item naturally, unless it was contacted. */
  method ResolveIfUncontacted(env: Environment, item: RiskItem, customer: CustomerId, contacted: set<RiskId>)
    requires env.Valid() && contacted == ContactedRisks(env.contacts) && item.riskId !in NaturalRisks(env.naturals)
    modifies env
    ensures env.Valid() && env.contacts == old(env.contacts)
    ensures if item.riskId in contacted then env.naturals == old(env.naturals)
            else |env.naturals| == |old(env.naturals)| + 1
                 && NaturalRisks(env.naturals) == NaturalRisks(old(env.naturals)) + {item.riskId}
  {
    if item.riskId !in contacted {
      ContactedIsObserved(env.contacts, item.riskId);
      NaturalIsResolved(env.naturals, item.riskId);
      var outcome := env.ObserveNatural(item, customer);
      assert env.naturals[..|env.naturals| - 1] == old(env.naturals);
    }
  }

  /** The uncontacted among the first i items are those resolved so far. */
  ghost predicate ResolvedTo(env: Environment, items: seq<OwnedItem>, i: nat, contacted: set<RiskId>)
    requires i <= |items|
    reads env
  {
    NaturalRisks(env.naturals) == Ids(items[..i]) - contacted && |env.naturals| == |Ids(items[..i]) - contacted|
  }

  method ResolveNext(env: Environment, items: seq<OwnedItem>, i: nat, contacted: set<RiskId>)
    requires env.Valid() && InIdOrder(items) && i < |items| && contacted == ContactedRisks(env.contacts)
    requires ResolvedTo(env, items, i, contacted)
    modifies env
    ensures env.Valid() && env.contacts == old(env.contacts) && ResolvedTo(env, items, i + 1, contacted)
  {
    IdsStep(items, i, contacted);
    ResolveIfUncontacted(env, items[i].0, items[i].1, contacted);
  }

  /**
   * Strictly after the run, every risk item that was never contacted is resolved naturally, exactly
   * once and without an error: contacted and natural outcomes partition the items.
   */
  method NaturalOutcomesForUncontacted(env: Environment, items: seq<OwnedItem>, contacted: set<RiskId>)
    requires env.Valid() && env.naturals == [] && InIdOrder(items)
    requires contacted == ContactedRisks(env.contacts)
    modifies env
    ensures env.Valid() && env.contacts == old(env.contacts)
    ensures NaturalRisks(env.naturals) == Ids(items) - contacted
    ensures |env.naturals| == |Ids(items) - contacted|
  {
    var i := 0;
    while i < |items|
      invariant 0 <= i <= |items| && env.Valid() && env.contacts == old(env.contacts)
      invariant ResolvedTo(env, items, i, contacted)
    {
      ResolveNext(env, items, i, contacted);
      i := i + 1;
    }
    assert items[..i] == items;
  }

  // ---- The run and what nature does with the rest ----

  /** The actions of customers that are not held out. */
  function NotHeldOut(actions: seq<Action>, heldOut: set<CustomerId>): seq<Action> {
    if actions == [] then [] else
      var n := |actions| - 1;
      NotHeldOut(actions[..n], heldOut) + (if actions[n].customerId in heldOut then [] else [actions[n]])
  }

  /** What is left is every action of everybody else, as often as it was asked for. */
  lemma {:induction false} NotHeldOutCounts(actions: seq<Action>, heldOut: set<CustomerId>, a: Action)
    ensures multiset(NotHeldOut(actions, heldOut))[a] == if a.customerId in heldOut then 0 else multiset(actions)[a]
  {
    if actions != [] {
      var n := |actions| - 1;
      assert actions == actions[..n] + [actions[n]];
      NotHeldOutCounts(actions[..n], heldOut, a);
    }
  }

  lemma NotHeldOutMembers(actions: seq<Action>, heldOut: set<CustomerId>)
    ensures forall a :: a in NotHeldOut(actions, heldOut) <==> a in actions && a.customerId !in heldOut
  {
    forall a ensures a in NotHeldOut(actions, heldOut) <==> a in actions && a.customerId !in heldOut {
      NotHeldOutCounts(actions, heldOut, a);
      assert a in NotHeldOut(actions, heldOut) <==> a in multiset(NotHeldOut(actions, heldOut));
      assert a in actions <==> a in multiset(actions);
    }
  }

  lemma {:induction false} CountContacts(contacts: seq<Contact>)
    requires DistinctContacts(contacts)
    ensures |ContactedRisks(contacts)| == |contacts|
  {
    if contacts != [] {
      var n := |contacts| - 1;
      CountContacts(contacts[..n]);
      ContactedIsObserved(contacts[..n], contacts[n].riskId);
    }
  }

  lemma {:induction false} CountIds(items: seq<OwnedItem>)
    requires InIdOrder(items)
    ensures |Ids(items)| == |items|
  {
    if items != [] {
      var n := |items| - 1;
      CountIds(items[..n]);
      IdsBelow(items, n);
      assert items[..n + 1] == items;
    }
  }

  /** Every item is resolved, by one contact or naturally, and nobody held out is contacted. */
  ghost predicate Partitioned(cfg: RunSetup, heldOut: set<CustomerId>, items: seq<OwnedItem>, contacts: seq<Contact>,
                              naturals: seq<NaturalOutcome>)
  {
    && ContactedRisks(contacts) !! NaturalRisks(naturals)
       && ContactedRisks(contacts) + NaturalRisks(naturals) == Ids(items)
    && |contacts| + |naturals| == |items|
    && (forall k :: k in contacts ==>
          k.riskId in cfg.registry.riskItems && cfg.registry.riskItems[k.riskId].1 !in heldOut)
  }

  lemma {:induction false} ContactedAmong(contacts: seq<Contact>, ids: set<RiskId>)
    requires forall k :: k in contacts ==> k.riskId in ids
    ensures ContactedRisks(contacts) <= ids
  {
    if contacts != [] {
      ContactedAmong(contacts[..|contacts| - 1], ids);
    }
  }

  lemma RestCount(part: set<RiskId>, whole: set<RiskId>)
    requires part <= whole
    ensures |part| + |whole - part| == |whole| && part + (whole - part) == whole && part !! (whole - part)
  {
    assert whole == part + (whole - part);
  }

  /** Nobody held out is contacted, and only about an item on record. */
  lemma HeldOutAreLeftAlone(cfg: RunSetup, oracle: Oracle, actions: seq<Action>, heldOut: set<CustomerId>, k: Contact)
    requires var those := NotHeldOut(actions, heldOut);
             ValidSetup(cfg, those) && RunLoop(cfg, oracle, those).Ok?
               && k in RunLoop(cfg, oracle, those).value.contacts
    ensures k.riskId in cfg.registry.riskItems && cfg.registry.riskItems[k.riskId].1 !in heldOut
  {
    NotHeldOutMembers(actions, heldOut);
    ContactedAboutOwnItem(cfg, oracle, NotHeldOut(actions, heldOut), k);
  }

  lemma RunPartitions(cfg: RunSetup, oracle: Oracle, actions: seq<Action>, heldOut: set<CustomerId>,
                      items: seq<OwnedItem>,
                      contacts: seq<Contact>, naturals: seq<NaturalOutcome>)
    requires ValidSetup(cfg, NotHeldOut(actions, heldOut)) && InIdOrder(items)
             && Ids(items) == cfg.registry.riskItems.Keys
    requires var run := RunLoop(cfg, oracle, NotHeldOut(actions, heldOut)); run.Ok? && contacts == run.value.contacts
    requires NaturalRisks(naturals) == Ids(items) - ContactedRisks(contacts)
    requires |naturals| == |Ids(items) - ContactedRisks(contacts)|
    ensures Partitioned(cfg, heldOut, items, contacts, naturals)
  {
    hide RunLoop, ValidSetup, NotHeldOut, ContactedRisks, NaturalRisks, Ids;
    ContactsAreDistinct(cfg, oracle, NotHeldOut(actions, heldOut));
    forall k | k in contacts
      ensures k.riskId in cfg.registry.riskItems && cfg.registry.riskItems[k.riskId].1 !in heldOut
    {
      HeldOutAreLeftAlone(cfg, oracle, actions, heldOut, k);
    }
    ContactedAmong(contacts, Ids(items));
    CountContacts(contacts);
    CountIds(items);
    RestCount(ContactedRisks(contacts), Ids(items));
  }

  /**
   * The run with a holdout: mediate for everybody else, then let nature resolve whatever was never
   * contacted.  Every risk item ends with exactly one outcome, and nobody held out is contacted.
   */
  method RunArmBHoldout(cfg: RunSetup, actions: seq<Action>, heldOut: set<CustomerId>, ledger: InMemoryMediationLedger,
                        env: Environment,
                        items: seq<OwnedItem>)
    returns (error: Option<RunError>)
    requires cfg.setup.world == ledger.world && ledger.View() == EMPTY
    requires env.Valid() && env.contacts == [] && env.naturals == []
    requires InIdOrder(items) && Ids(items) == cfg.registry.riskItems.Keys
    modifies ledger, env
    ensures error.Some? ==> RunLoop(cfg, env.recovers, NotHeldOut(actions, heldOut)) == Err(error.value)
    ensures ValidSetup(cfg, NotHeldOut(actions, heldOut)) ==>
              error.None? && Partitioned(cfg, heldOut, items, env.contacts, env.naturals)
  {
    var those := NotHeldOut(actions, heldOut);
    if ValidSetup(cfg, those) {
      ContactsAreDistinct(cfg, env.recovers, those);
    }
    var result := RunWindowLoop(cfg, those, ledger, env);
    if result.Err? {
      return Some(result.error);
    }
    NaturalOutcomesForUncontacted(env, items, ContactedRisks(result.value.0));
    if ValidSetup(cfg, those) {
      RunPartitions(cfg, env.recovers, actions, heldOut, items, env.contacts, env.naturals);
    }
    return None;
  }
}
