/**
 * Executing a window's grants: each is executed, observed and confirmed once, at a spend within its
 * reservation, so the contacts made and the confirmed grants stay in step.
 */
module RunExecution {
  import opened Allocator
  import opened Clock
  import opened Contracts
  import opened HardFilter
  import opened Ledger
  import opened LedgerInvariants
  import opened Margin
  import opened MediatedLedger
  import opened MediationOutcomes
  import opened WindowEffects
  import opened WindowGrants
  import opened WindowLoop

  // ---- Contacts and the grants they were made under ----

  /** The spend each request was settled at. */
  ghost function Spends(cfg: RunSetup, contacts: seq<Contact>): Settlements {
    if contacts == [] then map[] else
      var k := contacts[|contacts| - 1];
      Spends(cfg, contacts[..|contacts| - 1])[cfg.requestIdFor(k.agentId, k.riskId) := k.incentivePaise]
  }

  ghost predicate ContactOf(cfg: RunSetup, k: Contact, g: GrantRecord) {
    && g.grant.state.Confirmed?
    && g.requestId == cfg.requestIdFor(k.agentId, k.riskId)
    && g.customerId == k.customerId
    && g.grant.sendAfter == k.contactedAt
    && g.windowId == WindowIdFor(k.contactedAt)
    && 0 <= k.incentivePaise <= g.grant.ceilingPaise
  }

  /** A contact none of the ledger-independent hard rules objects to. */
  ghost predicate Permitted(cfg: RunSetup, k: Contact) {
    && !IsQuietHours(k.contactedAt)
    && (k.incentiveBps > 0 ==> !DisputeOpen(cfg.setup.world, k.customerId))
    && (k.customerId in cfg.optOuts ==> k.channel !in cfg.optOuts[k.customerId])
  }

  ghost predicate ContactsMatch(cfg: RunSetup, grants: seq<GrantRecord>, contacts: seq<Contact>) {
    |contacts| <= |grants| && forall i :: 0 <= i < |contacts| ==>
                                ContactOf(cfg, contacts[i], grants[i]) && Permitted(cfg, contacts[i])
  }

  ghost predicate DistinctContacts(contacts: seq<Contact>) {
    forall i, j :: 0 <= i < j < |contacts| ==> contacts[i].riskId != contacts[j].riskId
  }

  // ---- What is left to execute ----

  /** A candidate whose request was made for its risk item and customer. */
  ghost predicate Identified(cfg: RunSetup, c: Candidate) {
    && Sound(c)
    && c.request.requestId == cfg.requestIdFor(c.request.agentId, c.request.riskId)
    && c.request.customerId == c.customerId
  }

  ghost predicate Executable(cfg: RunSetup, o: Outcome, w: Window) {
    && Identified(cfg, o.candidate) && Shaped(o, w) && FairGrant(o)
    && (o.kind.Granted? ==> Contactable(cfg.setup.world, cfg.optOuts, o.candidate))
  }

  ghost predicate DistinctSubjects(outcomes: seq<Outcome>) {
    forall i, j :: 0 <= i < j < |outcomes| ==> outcomes[i].candidate.item.riskId != outcomes[j].candidate.item.riskId
  }

  ghost predicate MidExecution(cfg: RunSetup, run: Run, rest: seq<Outcome>, w: Window) {
    && Healthy(cfg.setup.world, run.tables, Spends(cfg, run.contacts))
    && InStep(cfg, run, rest, w)
  }

  /** Every contact has its confirmed grant, and what is left of the grants is what is left to execute. */
  ghost predicate InStep(cfg: RunSetup, run: Run, rest: seq<Outcome>, w: Window) {
    && ContactsMatch(cfg, run.tables.grants, run.contacts)
    && run.tables.grants == run.tables.grants[..|run.contacts|] + Records(rest)
    && DistinctContacts(run.contacts) && DistinctSubjects(rest)
    && (forall o :: o in rest ==> Executable(cfg, o, w))
    && (forall o :: o in rest ==> !Observed(run.contacts, o.candidate.item.riskId))
  }

  // ---- One grant ----

  /** A legal move within the reservation keeps the ledger healthy and changes only that grant's state. */
  lemma MoveKeepsHealthy(world: World, t: Tables, settled: Settlements, n: nat, step: Step, at: Instant)
    requires Healthy(world, t, settled) && n < |t.grants| && LegalTransition(t.grants[n].grant.state, step.Target())
    requires step.Confirm? ==> 0 <= step.spendPaise <= t.grants[n].grant.ceilingPaise
    ensures var g := t.grants[n];
            var moved := Transition(world, t, g.grant.grantId, step, at);
            && moved.Ok?
            && moved.value.grants == t.grants[n := g.(grant := g.grant.(state := step.Target()))]
            && Healthy(world, moved.value, if step.Confirm? then settled[g.requestId := step.spendPaise] else settled)
  {
    var id := t.grants[n].grant.grantId;
    FoundAt(t, n);
    TransitionKeepsCoherent(world, t, id, step, at);
    TransitionKeepsConserved(world, t, settled, id, step, at);
    TransitionChangesRemaining(world, t, id, step, at);
  }

  /** RESERVED to EXECUTING to CONFIRMED, settled within the reservation. */
  lemma ExecuteThenConfirm(world: World, t: Tables, settled: Settlements, n: nat, spend: int, at: Instant)
    requires Healthy(world, t, settled) && n < |t.grants| && t.grants[n].grant.state.Reserved?
    requires 0 <= spend <= t.grants[n].grant.ceilingPaise
    ensures var g := t.grants[n];
            var executing := Transition(world, t, g.grant.grantId, Execute, at);
            && executing.Ok?
            && var confirmed := Transition(world, executing.value, g.grant.grantId, Confirm(spend), at);
            && confirmed.Ok?
            && confirmed.value.grants == t.grants[n := Settle1(g)]
            && Healthy(world, confirmed.value, settled[g.requestId := spend])
  {
    MoveKeepsHealthy(world, t, settled, n, Execute, at);
    var t1 := Transition(world, t, t.grants[n].grant.grantId, Execute, at).value;
    MoveKeepsHealthy(world, t1, settled, n, Confirm(spend), at);
  }

  /** What the world books for a contact never exceeds what the grant reserved. */
  lemma SpendIsWithin(c: Candidate, grant: Grant, bps: int, recovered: bool)
    requires bps >= 0 && grant.ceilingPaise == IncentiveCeilingPaise(c.item.amountPaise, bps)
    ensures 0 <= Observe(c, grant, bps, recovered).incentivePaise <= grant.ceilingPaise
  {
  }

  lemma NextRecord(run: Run, rest: seq<Outcome>)
    requires |run.contacts| <= |run.tables.grants|
    requires run.tables.grants == run.tables.grants[..|run.contacts|] + Records(rest) && rest != []
    ensures Records(rest) == RecordOf(rest[0]) + Records(rest[1..])
    ensures RecordOf(rest[0]) != [] ==>
              |run.contacts| < |run.tables.grants| && [run.tables.grants[|run.contacts|]] == RecordOf(rest[0])
              && run.tables.grants == run.tables.grants[..|run.contacts| + 1] + Records(rest[1..])
  {
    assert rest == [rest[0]] + rest[1..];
    RecordsConcat([rest[0]], rest[1..]);
    assert Records([rest[0]]) == RecordOf(rest[0]) by {
      assert [rest[0]][..0] == [];
    }
  }

  /** One more contact has been made, for outcome `o`, and its grant confirmed. */
  ghost predicate Advanced(run: Run, next: Run, o: Outcome) {
    && |run.contacts| < |run.tables.grants|
    && |next.contacts| == |run.contacts| + 1 && next.contacts[..|run.contacts|] == run.contacts
    && next.contacts[|run.contacts|].riskId == o.candidate.item.riskId
    && next.tables.grants == run.tables.grants[|run.contacts| := Settle1(run.tables.grants[|run.contacts|])]
    && next.carried == run.carried && next.decisions == run.decisions
  }

  /** The contact the world makes of a granted outcome is the contact of the grant it was made under. */
  lemma ContactIsOfGrant(cfg: RunSetup, o: Outcome, recovered: bool, w: Window)
    requires Executable(cfg, o, w) && o.kind.Granted?
    ensures var k := Observe(o.candidate, o.grant.value, o.effectiveBps.value, recovered);
            && ContactOf(cfg, k, Settle1(RecordOf(o)[0])) && Permitted(cfg, k)
            && k.riskId == o.candidate.item.riskId
  {
    SpendIsWithin(o.candidate, o.grant.value, o.effectiveBps.value, recovered);
  }

  lemma ExecuteOne(cfg: RunSetup, oracle: Oracle, run: Run, rest: seq<Outcome>, w: Window)
    requires MidExecution(cfg, run, rest, w) && rest != [] && rest[0].kind.Granted? && Executable(cfg, rest[0], w)
    ensures var o := rest[0];
            var r := ExecuteGrant(cfg, oracle, run, o.candidate, o.grant.value, o.effectiveBps.value);
            r.Ok? && MidExecution(cfg, r.value, rest[1..], w) && Advanced(run, r.value, o)
  {
    var o, n := rest[0], |run.contacts|;
    assert o in rest;
    NextRecord(run, rest);
    assert run.tables.grants[n] == RecordOf(o)[0];
    var contact := Observe(o.candidate, o.grant.value, o.effectiveBps.value,
                           oracle(n, o.candidate, o.effectiveBps.value));
    ContactIsOfGrant(cfg, o, oracle(n, o.candidate, o.effectiveBps.value), w);
    ExecuteThenConfirm(cfg.setup.world, run.tables, Spends(cfg, run.contacts), n, contact.incentivePaise,
                       o.grant.value.sendAfter);
    var next := ExecuteGrant(cfg, oracle, run, o.candidate, o.grant.value, o.effectiveBps.value).value;
    assert next.contacts == run.contacts + [contact] && next.contacts[..n] == run.contacts;
    StillInStep(cfg, run, next, contact, rest, w);
  }

  /** A reserved grant once it is confirmed. */
  ghost function Settle1(g: GrantRecord): GrantRecord {
    g.(grant := g.grant.(state := Confirmed))
  }

  lemma StillInStep(cfg: RunSetup, run: Run, next: Run, contact: Contact, rest: seq<Outcome>, w: Window)
    requires InStep(cfg, run, rest, w) && rest != [] && |run.contacts| < |run.tables.grants|
    requires run.tables.grants == run.tables.grants[..|run.contacts| + 1] + Records(rest[1..])
    requires next.contacts == run.contacts + [contact]
    requires next.tables.grants == run.tables.grants[|run.contacts| := Settle1(run.tables.grants[|run.contacts|])]
    requires ContactOf(cfg, contact, Settle1(run.tables.grants[|run.contacts|])) && Permitted(cfg, contact)
    requires contact.riskId == rest[0].candidate.item.riskId
    ensures InStep(cfg, next, rest[1..], w)
  {
    var n := |run.contacts|;
    assert rest[0] in rest;
    assert next.tables.grants[n + 1..] == run.tables.grants[n + 1..] == Records(rest[1..]);
    MatchExtends(cfg, run.tables.grants, run.contacts, contact);
    RestStaysExecutable(cfg, run.contacts, contact, rest, w);
  }

  lemma MatchExtends(cfg: RunSetup, grants: seq<GrantRecord>, contacts: seq<Contact>, contact: Contact)
    requires ContactsMatch(cfg, grants, contacts) && DistinctContacts(contacts) && |contacts| < |grants|
    requires ContactOf(cfg, contact, Settle1(grants[|contacts|])) && Permitted(cfg, contact)
             && !Observed(contacts, contact.riskId)
    ensures ContactsMatch(cfg, grants[|contacts| := Settle1(grants[|contacts|])], contacts + [contact])
    ensures DistinctContacts(contacts + [contact])
  {
  }

  lemma RestStaysExecutable(cfg: RunSetup, contacts: seq<Contact>, contact: Contact, rest: seq<Outcome>, w: Window)
    requires rest != [] && DistinctSubjects(rest) && contact.riskId == rest[0].candidate.item.riskId
    requires forall o :: o in rest ==> Executable(cfg, o, w) && !Observed(contacts, o.candidate.item.riskId)
    ensures DistinctSubjects(rest[1..])
    ensures forall o :: o in rest[1..] ==>
              Executable(cfg, o, w) && !Observed(contacts + [contact], o.candidate.item.riskId)
  {
    forall o | o in rest[1..]
      ensures !Observed(contacts + [contact], o.candidate.item.riskId) && Executable(cfg, o, w)
    {
      var j :| 0 <= j < |rest[1..]| && rest[1..][j] == o;
      assert rest[j + 1] == o && o in rest;
      NotObservedAfter(contacts, contact, o.candidate.item.riskId);
    }
  }

  lemma NotObservedAfter(contacts: seq<Contact>, contact: Contact, risk: RiskId)
    requires !Observed(contacts, risk) && contact.riskId != risk
    ensures !Observed(contacts + [contact], risk)
  {
    forall i | 0 <= i < |contacts + [contact]| ensures (contacts + [contact])[i].riskId != risk {
      assert i < |contacts| ==> (contacts + [contact])[i] == contacts[i];
    }
  }

  // ---- All grants of a window ----

  /** The same grants, some of them confirmed since. */
  ghost predicate Settling(before: seq<GrantRecord>, after: seq<GrantRecord>) {
    |before| == |after| && forall i :: 0 <= i < |before| ==> after[i] == before[i] || after[i] == Settle1(before[i])
  }

  ghost predicate GrantedAbout(outcomes: seq<Outcome>, risk: RiskId) {
    exists i :: 0 <= i < |outcomes| && outcomes[i].kind.Granted? && outcomes[i].candidate.item.riskId == risk
  }

  lemma GrantedAboutFirst(outcomes: seq<Outcome>, risk: RiskId)
    requires outcomes != []
    ensures GrantedAbout(outcomes, risk)
            <==> (outcomes[0].kind.Granted? && outcomes[0].candidate.item.riskId == risk)
                 || GrantedAbout(outcomes[1..], risk)
  {
    if GrantedAbout(outcomes, risk) {
      var i :| 0 <= i < |outcomes| && outcomes[i].kind.Granted? && outcomes[i].candidate.item.riskId == risk;
      assert i > 0 ==> outcomes[1..][i - 1] == outcomes[i];
    }
    if GrantedAbout(outcomes[1..], risk) {
      var i :| 0 <= i < |outcomes[1..]| && outcomes[1..][i].kind.Granted?
          && outcomes[1..][i].candidate.item.riskId == risk;
      assert outcomes[i + 1] == outcomes[1..][i];
    }
  }

  lemma ObservedExtends(contacts: seq<Contact>, contact: Contact, risk: RiskId)
    ensures Observed(contacts + [contact], risk) <==> Observed(contacts, risk) || contact.riskId == risk
  {
    if !Observed(contacts, risk) && contact.riskId != risk {
      NotObservedAfter(contacts, contact, risk);
    }
    if Observed(contacts, risk) {
      var i :| 0 <= i < |contacts| && contacts[i].riskId == risk;
      assert (contacts + [contact])[i] == contacts[i];
    }
    assert (contacts + [contact])[|contacts|] == contact;
  }

  lemma SkipGrantless(cfg: RunSetup, run: Run, rest: seq<Outcome>, w: Window)
    requires InStep(cfg, run, rest, w) && rest != [] && !rest[0].kind.Granted?
    ensures InStep(cfg, run, rest[1..], w) && rest[0].grant.None?
  {
    NextRecord(run, rest);
    assert rest[0] in rest;
    assert Executable(cfg, rest[0], w);
    assert RecordOf(rest[0]) == [];
    assert rest == [rest[0]] + rest[1..];
  }

  /** `done` is `run` once every grant among `rest` has been executed. */
  ghost predicate ExecutedTo(run: Run, done: Run, rest: seq<Outcome>) {
    && run.contacts <= done.contacts
    && Settling(run.tables.grants, done.tables.grants)
    && done.carried == run.carried && done.decisions == run.decisions
    && (forall risk :: Observed(done.contacts, risk) <==> Observed(run.contacts, risk) || GrantedAbout(rest, risk))
  }

  lemma ExecutedOneMore(run: Run, next: Run, done: Run, rest: seq<Outcome>)
    requires rest != [] && rest[0].kind.Granted? && Advanced(run, next, rest[0])
    requires ExecutedTo(next, done, rest[1..])
    ensures ExecutedTo(run, done, rest)
  {
    assert next.contacts == run.contacts + [next.contacts[|run.contacts|]];
    forall risk ensures Observed(done.contacts, risk) <==> Observed(run.contacts, risk) || GrantedAbout(rest, risk) {
      GrantedAboutFirst(rest, risk);
      ObservedExtends(run.contacts, next.contacts[|run.contacts|], risk);
    }
  }

  lemma ExecutedSkip(run: Run, done: Run, rest: seq<Outcome>)
    requires rest != [] && !rest[0].kind.Granted? && ExecutedTo(run, done, rest[1..])
    ensures ExecutedTo(run, done, rest)
  {
    forall risk ensures GrantedAbout(rest, risk) <==> GrantedAbout(rest[1..], risk) {
      GrantedAboutFirst(rest, risk);
    }
  }

  /** Whatever the first outcome is, what remains can be executed from where it leaves the run. */
  lemma ExecuteFirst(cfg: RunSetup, oracle: Oracle, run: Run, rest: seq<Outcome>, w: Window) returns (next: Run)
    requires MidExecution(cfg, run, rest, w) && rest != []
    ensures ExecuteGrants(cfg, oracle, run, rest) == ExecuteGrants(cfg, oracle, next, rest[1..])
    ensures MidExecution(cfg, next, rest[1..], w)
    ensures forall done :: ExecutedTo(next, done, rest[1..]) ==> ExecutedTo(run, done, rest)
  {
    var o := rest[0];
    assert Executable(cfg, o, w) by {
      assert o in rest;
    }
    if o.kind.Granted? {
      next := ExecuteGrantedFirst(cfg, oracle, run, rest, w);
    } else {
      next := run;
      SkipGrantless(cfg, run, rest, w);
      forall done | ExecutedTo(next, done, rest[1..]) ensures ExecutedTo(run, done, rest) {
        ExecutedSkip(run, done, rest);
      }
    }
  }

  lemma ExecuteGrantedFirst(cfg: RunSetup, oracle: Oracle, run: Run, rest: seq<Outcome>, w: Window) returns (next: Run)
    requires MidExecution(cfg, run, rest, w) && rest != [] && rest[0].kind.Granted? && Executable(cfg, rest[0], w)
    ensures ExecuteGrants(cfg, oracle, run, rest) == ExecuteGrants(cfg, oracle, next, rest[1..])
    ensures MidExecution(cfg, next, rest[1..], w)
    ensures forall done :: ExecutedTo(next, done, rest[1..]) ==> ExecutedTo(run, done, rest)
  {
    var o := rest[0];
    ExecuteOne(cfg, oracle, run, rest, w);
    next := ExecuteGrant(cfg, oracle, run, o.candidate, o.grant.value, o.effectiveBps.value).value;
    forall done | ExecutedTo(next, done, rest[1..]) ensures ExecutedTo(run, done, rest) {
      ExecutedOneMore(run, next, done, rest);
    }
  }

  /** Executing a window never fails, contacts exactly the granted risk items, and confirms every grant. */
  lemma {:induction false} ExecuteAll(cfg: RunSetup, oracle: Oracle, run: Run, rest: seq<Outcome>, w: Window)
    requires MidExecution(cfg, run, rest, w)
    ensures var r := ExecuteGrants(cfg, oracle, run, rest);
            r.Ok? && MidExecution(cfg, r.value, [], w) && ExecutedTo(run, r.value, rest)
    decreases |rest|
  {
    if rest != [] {
      var next := ExecuteFirst(cfg, oracle, run, rest, w);
      ExecuteAll(cfg, oracle, next, rest[1..], w);
    }
  }
}
