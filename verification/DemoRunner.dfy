/**
 * Executing one grant against a provider that may fail (sampark/demo/runner.py, _execute_grant): a
 * bounded retry under the same grant, then confirmation, or compensation by rolling the grant back.
 */
module DemoRunner {
  import opened Clock
  import opened Contracts
  import opened Ledger
  import opened PostgresIssuer
  import opened Provider
  import opened SqlStore
  import opened Wrappers

  const SCRIPTED_PROVIDER_FAILURE_WINDOW := 1

  datatype Execution =
    | Sent(attempts: nat, deduplicated: bool)
    | Compensated
    | LedgerError(error: SqlError)
    | UnknownChannel

  datatype RunnerState = RunnerState(
    db: Db, provider: ProviderState, pendingMode: Option<FailureMode>, retries: nat, rollbacks: nat)

  /** The scripted outage of the designated window, or the one an operator has asked for. */
  function ArmedFor(s: RunnerState, id: GrantId, windowIndex: int): ProviderState {
    if s.pendingMode.Some? then After(s.provider, Arm(s.pendingMode.value, Some(id)))
    else if windowIndex == SCRIPTED_PROVIDER_FAILURE_WINDOW && s.provider.failureMode.NoFailure? && s.rollbacks == 0
    then After(s.provider, Arm(HardDown, Some(id)))
    else s.provider
  }

  /** At most `n` attempts, stopping at the first that does not time out; the timeouts are counted. */
  function Sends(s: ProviderState, id: GrantId, channel: string, n: nat): (Option<SendOutcome>, ProviderState, nat)
    decreases n
  {
    if n == 0 then (None, s, 0) else
      var (outcome, s1) := Attempt(s, id, channel);
      if outcome.TimedOut? then
        var (rest, s2, timeouts) := Sends(s1, id, channel, n - 1);
        (rest, s2, timeouts + 1)
      else (Some(outcome), s1, 0)
  }

  function Settled(s: RunnerState, grant: Grant, outcome: Option<SendOutcome>): (Execution, RunnerState) {
    var id := grant.grantId;
    match outcome
    case None =>
      var (db, error) := SqlTransition(s.db, id, Rollback, grant.sendAfter);
      if error.Some? then (LedgerError(error.value), s.(db := db))
      else (Compensated, s.(db := db, provider := After(s.provider, Disarm), rollbacks := s.rollbacks + 1))
    case Some(Delivered(_, attempts, deduplicated)) =>
      var (db, error) := SqlTransition(s.db, id, Confirm(grant.ceilingPaise), grant.sendAfter);
      var s1 := s.(db := db, provider := After(s.provider, Disarm));
      (if error.Some? then LedgerError(error.value) else Sent(attempts, deduplicated), s1)
    case Some(_) => (UnknownChannel, s)
  }

  /** Everything after the grant was moved to EXECUTING. */
  function Pursued(s: RunnerState, grant: Grant, windowIndex: int): (Execution, RunnerState) {
    var (outcome, provider, timeouts) := Sends(ArmedFor(s, grant.grantId, windowIndex), grant.grantId, grant.channel,
                                               MAX_ATTEMPTS);
    Settled(s.(provider := provider, pendingMode := None, retries := s.retries + timeouts), grant, outcome)
  }

  function Executed(s: RunnerState, grant: Grant, windowIndex: int): (Execution, RunnerState) {
    var (db, error) := SqlTransition(s.db, grant.grantId, Execute, grant.sendAfter);
    if error.Some? then (LedgerError(error.value), s.(db := db)) else Pursued(s.(db := db), grant, windowIndex)
  }

  // ---- What the provider sees ----

  ghost predicate OnlyThisGrant(before: ProviderState, after: ProviderState, id: GrantId) {
    forall other :: other != id ==> (other in after.accepted <==> other in before.accepted)
  }

  ghost predicate SafeAttempts(s: ProviderState, s': ProviderState, id: GrantId) {
    && Exact(s') && OnlyThisGrant(s, s', id)
    && (id in s.accepted ==> id in s'.accepted && s'.accepted[id] == s.accepted[id])
    && |s'.deliveries| == |s.deliveries| + (if id in s'.accepted && id !in s.accepted then 1 else 0)
    && s.deliveries <= s'.deliveries
  }

  lemma AttemptIsSafe(s: ProviderState, id: GrantId, channel: string)
    requires Exact(s)
    ensures SafeAttempts(s, Attempt(s, id, channel).1, id)
  {
    CallKeepsExact(s, SendCall(id, channel));
  }

  lemma {:induction false} SendsAreSafe(s: ProviderState, id: GrantId, channel: string, n: nat)
    requires Exact(s)
    ensures SafeAttempts(s, Sends(s, id, channel, n).1, id)
    decreases n
  {
    if n > 0 {
      AttemptIsSafe(s, id, channel);
      var (outcome, s1) := Attempt(s, id, channel);
      if outcome.TimedOut? {
        SendsAreSafe(s1, id, channel, n - 1);
      }
    }
  }

  /** Only a provider that is down for the grant, and has not accepted it before, exhausts the retries. */
  lemma RetriesEnd(s: ProviderState, id: GrantId, channel: string)
    ensures var (outcome, s', timeouts) := Sends(s, id, channel, MAX_ATTEMPTS);
            && (outcome.None? <==> id !in s.accepted && AppliesTo(s, id) && s.failureMode.HardDown?)
            && (outcome.None? ==> id !in s'.accepted)
            && (outcome.Some? ==> (outcome.value.Delivered? <==> id in s'.accepted))
            && (outcome.Some? ==> outcome.value.Delivered? || outcome.value.NoSuchChannel?)
            && (outcome.Some? && outcome.value.Delivered? ==> outcome.value.receipt == s'.accepted[id])
            && (timeouts == MAX_ATTEMPTS <==> outcome.None?)
  {
    var (outcome, s1) := Attempt(s, id, channel);
    if outcome.TimedOut? {
      var (again, s2) := Attempt(s1, id, channel);
      assert Sends(s1, id, channel, 1) == if again.TimedOut? then (None, s2, 1) else (Some(again), s2, 0);
    }
  }

  /** What two attempts come to for a grant the provider has never seen, under each failure. */
  lemma EachFailureEnds(s: ProviderState, id: GrantId, channel: string)
    requires Exact(s) && id !in s.accepted && id !in s.attempts && channel in {"sms", "whatsapp", "voice"}
    ensures var (outcome, s', timeouts) := Sends(s, id, channel, 2);
            var hit := s.targeted.None? || s.targeted == Some(id);
            var receipt := Receipt(id, channel);
            match if hit then s.failureMode else NoFailure
            case NoFailure => outcome == Some(Delivered(receipt, 1, false)) && timeouts == 0
            case TimeoutThenSuccess => outcome == Some(Delivered(receipt, 2, false)) && timeouts == 1
            case AcceptThenTimeout => outcome == Some(Delivered(receipt, 2, true)) && timeouts == 1
            case HardDown => outcome.None? && timeouts == 2 && s'.deliveries == s.deliveries
  {
    var (first, s1) := Attempt(s, id, channel);
    assert Sends(s, id, channel, 2) == if first.TimedOut?
      then (Sends(s1, id, channel, 1).0, Sends(s1, id, channel, 1).1, Sends(s1, id, channel, 1).2 + 1)
      else (Some(first), s1, 0);
    if first.TimedOut? {
      var (second, s2) := Attempt(s1, id, channel);
      assert Sends(s1, id, channel, 1) == if second.TimedOut? then (None, s2, 1) else (Some(second), s2, 0);
    }
  }

  /**
   * What is armed before a grant is sent: what an operator asked for, for this grant; the scripted
   * outage in the second window, unless something is armed or has been rolled back; or nothing new.
   */
  lemma OutageMeans(s: RunnerState, id: GrantId, windowIndex: int)
    ensures var p := ArmedFor(s, id, windowIndex);
            var scripted := windowIndex == 1 && s.provider.failureMode.NoFailure? && s.rollbacks == 0;
            && p.accepted == s.provider.accepted && p.attempts == s.provider.attempts
            && p.deliveries == s.provider.deliveries
            && (s.pendingMode.Some? ==> p.failureMode == s.pendingMode.value && p.targeted == Some(id))
            && (s.pendingMode.None? && scripted ==> p.failureMode == HardDown && p.targeted == Some(id))
            && (s.pendingMode.None? && !scripted ==> p == s.provider)
  {
  }

  // ---- What the ledger sees ----

  /** A request owns one grant, whose identifier it determines. */
  ghost predicate Keyed(db: Db) {
    && (forall i :: 0 <= i < |db.grants| ==> db.grants[i].grant.grantId == Uuid5Grant(db.grants[i].requestId))
    && (forall i, j :: 0 <= i < j < |db.grants| ==> db.grants[i].requestId != db.grants[j].requestId)
  }

  /** A transition moves one grant, and only to its target. */
  lemma TransitionMovesOne(db: Db, id: GrantId, step: Step, at: Instant, i: nat)
    requires Keyed(db) && i < |db.grants|
    ensures var (db', error) := SqlTransition(db, id, step, at);
            && |db'.grants| == |db.grants|
            && db'.grants[i].requestId == db.grants[i].requestId
            && db'.grants[i].grant.grantId == db.grants[i].grant.grantId
            && (db.grants[i].grant.grantId != id ==> db'.grants[i] == db.grants[i])
            && (db'.grants[i] != db.grants[i] ==>
                LegalTransition(db.grants[i].grant.state, step.Target()) && db'.grants[i].grant.state == step.Target())
            && (error.None? && db.grants[i].grant.grantId == id ==> db'.grants[i].grant.state == step.Target())
  {
  }

  lemma TransitionKeepsKeyed(db: Db, id: GrantId, step: Step, at: Instant)
    requires Keyed(db)
    ensures Keyed(SqlTransition(db, id, step, at).0)
  {
    var db' := SqlTransition(db, id, step, at).0;
    forall i | 0 <= i < |db.grants|
      ensures |db'.grants| == |db.grants| && db'.grants[i].requestId == db.grants[i].requestId
              && db'.grants[i].grant.grantId == db.grants[i].grant.grantId
    {
      TransitionMovesOne(db, id, step, at, i);
    }
  }

  // ---- Whole runs ----

  /** What the ledger says of a grant is what happened to the customer. */
  ghost predicate Honest(s: RunnerState) {
    && Keyed(s.db) && Exact(s.provider)
    && (forall id :: id in s.provider.accepted ==> Known(s.db, id))
    && (forall i :: 0 <= i < |s.db.grants| ==> HonestRow(s.provider, s.db.grants[i]))
  }

  ghost predicate Known(db: Db, id: GrantId) {
    exists i :: 0 <= i < |db.grants| && db.grants[i].grant.grantId == id
  }

  ghost predicate HonestRow(p: ProviderState, row: GrantRow) {
    && (row.grant.state.Confirmed? ==> row.grant.grantId in p.accepted)
    && (row.grant.state.Reserved? || Releasing(row.grant.state) ==> row.grant.grantId !in p.accepted)
  }

  datatype Event =
    | Issuing(scope: Scope, candidate: Candidate, bps: int, decisionAt: Instant)
    | Executing(grant: Grant, windowIndex: int)
    | Expiring(id: GrantId, at: Instant)
    | Forcing(mode: FailureMode)
    | Chaos(mode: FailureMode, target: Option<GrantId>)

  function Happens(s: RunnerState, event: Event): RunnerState {
    match event
    case Issuing(scope, c, bps, at) => s.(db := SqlIssue(s.db, scope, c, bps, at).1)
    case Executing(grant, w) => Executed(s, grant, w).1
    case Expiring(id, at) => s.(db := SqlTransition(s.db, id, Expire, at).0)
    case Forcing(mode) => s.(pendingMode := Some(mode))
    case Chaos(mode, target) => s.(provider := After(s.provider, Arm(mode, target)))
  }

  function AllHappen(s: RunnerState, events: seq<Event>): RunnerState {
    if events == [] then s else Happens(AllHappen(s, events[..|events| - 1]), events[|events| - 1])
  }

  lemma IssuingKeepsHonest(s: RunnerState, scope: Scope, c: Candidate, bps: int, at: Instant)
    requires Honest(s)
    ensures Honest(s.(db := SqlIssue(s.db, scope, c, bps, at).1))
  {
    var db' := SqlIssue(s.db, scope, c, bps, at).1;
    var n := |s.db.grants|;
    if db'.grants != s.db.grants {
      var id := Uuid5Grant(c.request.requestId);
      assert FindGrantRow(s.db.grants, c.request.requestId).None?;
      assert !Known(s.db, id);
      assert |db'.grants| == n + 1 && db'.grants[..n] == s.db.grants && db'.grants[n].grant.grantId == id
             && db'.grants[n].grant.state.Reserved? && db'.grants[n].requestId == c.request.requestId;
    }
    forall other | other in s.provider.accepted ensures Known(db', other) {
      var i :| 0 <= i < n && s.db.grants[i].grant.grantId == other;
      assert db'.grants[i] == s.db.grants[i];
    }
  }

  lemma TransitionKeepsHonest(s: RunnerState, id: GrantId, step: Step, at: Instant)
    requires Honest(s)
    requires step.Confirm? ==> id in s.provider.accepted
    requires step.Rollback? ==> id !in s.provider.accepted
    ensures Honest(s.(db := SqlTransition(s.db, id, step, at).0))
  {
    var db' := SqlTransition(s.db, id, step, at).0;
    TransitionKeepsKeyed(s.db, id, step, at);
    forall i | 0 <= i < |s.db.grants|
      ensures |db'.grants| == |s.db.grants| && HonestRow(s.provider, db'.grants[i])
              && db'.grants[i].grant.grantId == s.db.grants[i].grant.grantId
    {
      TransitionMovesOne(s.db, id, step, at, i);
    }
    forall other | other in s.provider.accepted ensures Known(db', other) {
      var i :| 0 <= i < |s.db.grants| && s.db.grants[i].grant.grantId == other;
      assert db'.grants[i].grant.grantId == other;
    }
  }

  ghost predicate InExecution(db: Db, id: GrantId) {
    Known(db, id) && forall i :: 0 <= i < |db.grants| && db.grants[i].grant.grantId == id ==>
                       db.grants[i].grant.state.Executing?
  }

  lemma ExecuteStarts(db: Db, id: GrantId, at: Instant)
    requires Keyed(db) && SqlTransition(db, id, Execute, at).1.None?
    ensures InExecution(SqlTransition(db, id, Execute, at).0, id)
  {
    var db' := SqlTransition(db, id, Execute, at).0;
    var k := FindGrantRowById(db.grants, id).value;
    TransitionMovesOne(db, id, Execute, at, k);
    assert db'.grants[k].grant.grantId == id;
    forall i | 0 <= i < |db'.grants| && db'.grants[i].grant.grantId == id ensures db'.grants[i].grant.state.Executing? {
      TransitionMovesOne(db, id, Execute, at, i);
    }
  }

  lemma SettlingKeepsHonest(s: RunnerState, grant: Grant, outcome: Option<SendOutcome>)
    requires Honest(s)
    requires outcome.None? ==> grant.grantId !in s.provider.accepted
    requires outcome.Some? && outcome.value.Delivered? ==> grant.grantId in s.provider.accepted
    ensures Honest(Settled(s, grant, outcome).1)
  {
    if outcome.None? {
      TransitionKeepsHonest(s, grant.grantId, Rollback, grant.sendAfter);
    } else if outcome.value.Delivered? {
      TransitionKeepsHonest(s, grant.grantId, Confirm(grant.ceilingPaise), grant.sendAfter);
    }
  }

  /** The provider may come to accept a grant while it is being executed. */
  lemma AcceptingKeepsHonest(s: RunnerState, id: GrantId, s': RunnerState)
    requires Honest(s) && InExecution(s.db, id)
    requires s'.db == s.db && SafeAttempts(s.provider, s'.provider, id)
    ensures Honest(s')
  {
    forall i | 0 <= i < |s.db.grants| ensures HonestRow(s'.provider, s.db.grants[i]) {
      assert HonestRow(s.provider, s.db.grants[i]);
    }
  }

  lemma PursuingKeepsHonest(s: RunnerState, grant: Grant, windowIndex: int)
    requires Honest(s) && InExecution(s.db, grant.grantId)
    ensures Honest(Pursued(s, grant, windowIndex).1)
  {
    var armed := ArmedFor(s, grant.grantId, windowIndex);
    SendsAreSafe(armed, grant.grantId, grant.channel, MAX_ATTEMPTS);
    RetriesEnd(armed, grant.grantId, grant.channel);
    var (outcome, provider, timeouts) := Sends(armed, grant.grantId, grant.channel, MAX_ATTEMPTS);
    var s1 := s.(provider := provider, pendingMode := None, retries := s.retries + timeouts);
    AcceptingKeepsHonest(s, grant.grantId, s1);
    SettlingKeepsHonest(s1, grant, outcome);
  }

  lemma ExecutingKeepsHonest(s: RunnerState, grant: Grant, windowIndex: int)
    requires Honest(s)
    ensures Honest(Executed(s, grant, windowIndex).1)
  {
    var (db, error) := SqlTransition(s.db, grant.grantId, Execute, grant.sendAfter);
    TransitionKeepsHonest(s, grant.grantId, Execute, grant.sendAfter);
    if error.None? {
      ExecuteStarts(s.db, grant.grantId, grant.sendAfter);
      PursuingKeepsHonest(s.(db := db), grant, windowIndex);
    }
  }

  /**
   * Whatever is issued, executed, expired, forced and armed, in any order: a grant the ledger calls
   * confirmed was delivered exactly once, and one it calls rolled back or expired never was.
   */
  lemma {:induction false} EveryDemoRunIsHonest(s: RunnerState, events: seq<Event>)
    requires Honest(s)
    ensures var end := AllHappen(s, events);
            && Honest(end)
            && (forall i :: 0 <= i < |end.db.grants| ==>
                  && DeliveriesOf(end.provider.deliveries, end.db.grants[i].grant.grantId) <= 1
                  && (end.db.grants[i].grant.state.Confirmed? ==>
                      DeliveriesOf(end.provider.deliveries, end.db.grants[i].grant.grantId) == 1)
                  && (Releasing(end.db.grants[i].grant.state) ==>
                      DeliveriesOf(end.provider.deliveries, end.db.grants[i].grant.grantId) == 0))
  {
    if events != [] {
      var before, event := AllHappen(s, events[..|events| - 1]), events[|events| - 1];
      EveryDemoRunIsHonest(s, events[..|events| - 1]);
      match event
      case Issuing(scope, c, bps, at) => IssuingKeepsHonest(before, scope, c, bps, at);
      case Executing(grant, w) => ExecutingKeepsHonest(before, grant, w);
      case Expiring(id, at) => TransitionKeepsHonest(before, id, Expire, at);
      case Forcing(_) =>
      case Chaos(mode, target) => CallKeepsExact(before.provider, Arm(mode, target));
    }
    var end := AllHappen(s, events);
    assert forall i :: 0 <= i < |end.db.grants| ==> HonestRow(end.provider, end.db.grants[i]);
  }

  /** What the outcome of one execution says, and that an armed failure does not outlive it. */
  ghost predicate Truthful(s: RunnerState, id: GrantId, execution: Execution, s': RunnerState) {
    var n := DeliveriesOf(s'.provider.deliveries, id);
    && (execution.Sent? ==> n == 1 && s'.rollbacks == s.rollbacks)
    && (execution.Compensated? ==> n == 0 && s'.provider.deliveries == s.provider.deliveries
                                   && s'.retries == s.retries + MAX_ATTEMPTS && s'.rollbacks == s.rollbacks + 1)
    && (execution.Sent? || execution.Compensated? ==> s'.provider.failureMode.NoFailure? && s'.pendingMode.None?)
  }

  lemma PursuitIsTruthful(s: RunnerState, grant: Grant, windowIndex: int)
    requires Exact(s.provider)
    ensures var (execution, s') := Pursued(s, grant, windowIndex); Truthful(s, grant.grantId, execution, s')
  {
    var armed := ArmedFor(s, grant.grantId, windowIndex);
    SendsAreSafe(armed, grant.grantId, grant.channel, MAX_ATTEMPTS);
    RetriesEnd(armed, grant.grantId, grant.channel);
    var (outcome, provider, timeouts) := Sends(armed, grant.grantId, grant.channel, MAX_ATTEMPTS);
    assert DeliveriesOf(provider.deliveries, grant.grantId) == if grant.grantId in provider.accepted then 1 else 0;
    assert outcome.None? ==> |provider.deliveries| == |armed.deliveries| && provider.deliveries == armed.deliveries;
  }

  lemma OutcomesAreTruthful(s: RunnerState, grant: Grant, windowIndex: int)
    requires Exact(s.provider)
    ensures var (execution, s') := Executed(s, grant, windowIndex); Truthful(s, grant.grantId, execution, s')
  {
    var (db, error) := SqlTransition(s.db, grant.grantId, Execute, grant.sendAfter);
    if error.None? {
      PursuitIsTruthful(s.(db := db), grant, windowIndex);
    }
  }

  // ---- Compensation ----

  /** Claims belong to grants. */
  ghost predicate ClaimsBelong(db: Db) {
    forall k :: 0 <= k < |db.claims| ==> FindGrantRow(db.grants, db.claims[k].grantId.requestId).Some?
  }

  lemma {:induction false} NewRequestIsNotCounted(grants: seq<GrantRow>, requests: map<RequestId, GrantRequest>,
                                                  request: GrantRequest, customer: CustomerId, cutoff: Instant)
    requires FindGrantRow(grants, request.requestId).None?
    ensures CountActiveSince(requests[request.requestId := request], grants, customer, cutoff)
            == CountActiveSince(requests, grants, customer, cutoff)
  {
    if grants != [] {
      NewRequestIsNotCounted(grants[..|grants| - 1], requests, request, customer, cutoff);
    }
  }

  /** The candidate is new to the ledger, and its stored request, if any, is its own. */
  ghost predicate NewTo(db: Db, c: Candidate) {
    && Keyed(db) && ClaimsBelong(db)
    && FindGrantRow(db.grants, c.request.requestId).None?
    && (c.request.requestId in db.requests ==> db.requests[c.request.requestId] == c.request)
    && c.request.customerId == c.customerId && c.windowId == WindowIdFor(c.sendAfter)
  }

  /** The table constraints hold of the two rows the grant draws on. */
  ghost predicate FundedBy(db: Db, scope: Scope, c: Candidate) {
    WithinBudget(MerchantRow(db, c.windowId)) && WithinBudget(CustomerRow(db, scope, c.customerId, c.windowId))
  }

  /** The ledger right after a grant is issued, with the grant and its claim moved to another state. */
  function WithGrantIn(db: Db, scope: Scope, c: Candidate, ceiling: nat, decisionAt: Instant, state: GrantState,
                       releasedAt: Option<Instant>): Db
  {
    var grant := NewGrant(c, ceiling).(state := state);
    var held := if HoldsReservation(state) then ceiling else 0;
    db.(grants := db.grants + [GrantRow(c.request.requestId, grant, c.windowId)],
        claims := db.claims + [Claim(grant.grantId, c.customerId, c.windowId, state, decisionAt, releasedAt)],
        budgetWindows := db.budgetWindows[c.windowId := Reserve(MerchantRow(db, c.windowId), held)],
        customerMargins := db.customerMargins[(c.customerId, c.windowId) :=
          Reserve(CustomerRow(db, scope, c.customerId, c.windowId), held)])
  }

  lemma LastClaimIsFound(db: Db, scope: Scope, c: Candidate, ceiling: nat, decisionAt: Instant, state: GrantState)
    requires NewTo(db, c)
    ensures var after := WithGrantIn(db, scope, c, ceiling, decisionAt, state, None);
            FindClaimFrom(after.claims, Uuid5Grant(c.request.requestId), 0) == Some(|db.claims|)
  {
    var after := WithGrantIn(db, scope, c, ceiling, decisionAt, state, None);
    assert forall k :: 0 <= k < |db.claims| ==> after.claims[k] == db.claims[k];
    assert after.claims[|db.claims|].grantId == Uuid5Grant(c.request.requestId);
  }

  lemma NewGrantExecutes(db: Db, scope: Scope, c: Candidate, ceiling: nat, decisionAt: Instant, at: Instant)
    requires NewTo(db, c) && c.request.requestId in db.requests
    ensures SqlTransition(SqlAdmit(db, scope, c, ceiling, decisionAt), Uuid5Grant(c.request.requestId), Execute, at)
            == (WithGrantIn(db, scope, c, ceiling, decisionAt, GrantState.Executing, None), None)
  {
    var admitted := SqlAdmit(db, scope, c, ceiling, decisionAt);
    assert admitted == WithGrantIn(db, scope, c, ceiling, decisionAt, Reserved, None);
    LastClaimIsFound(db, scope, c, ceiling, decisionAt, Reserved);
    var executing := WithGrantIn(db, scope, c, ceiling, decisionAt, GrantState.Executing, None);
    var n := |db.grants|;
    assert admitted.grants[n := executing.grants[n]] == executing.grants;
    assert admitted.claims[|db.claims| := executing.claims[|db.claims|]] == executing.claims;
  }

  lemma ReleaseRestoresPools(db: Db, scope: Scope, c: Candidate, ceiling: nat, moved: Db, row: GrantRow)
    requires FundedBy(db, scope, c) && c.windowId == WindowIdFor(c.sendAfter)
    requires row.grant.ceilingPaise == ceiling && row.grant.sendAfter == c.sendAfter && row.budgetWindow == c.windowId
    requires moved.budgetWindows == db.budgetWindows[c.windowId := Reserve(MerchantRow(db, c.windowId), ceiling)]
    requires moved.customerMargins
             == db.customerMargins[(c.customerId, c.windowId) :=
                                   Reserve(CustomerRow(db, scope, c.customerId, c.windowId), ceiling)]
    ensures SqlBook(moved, row, c.customerId, 0 - ceiling, 0) ==
      (moved.(budgetWindows := db.budgetWindows[c.windowId := MerchantRow(db, c.windowId)],
              customerMargins :=
              db.customerMargins[(c.customerId, c.windowId) := CustomerRow(db, scope, c.customerId, c.windowId)]), None)
  {
    assert moved.budgetWindows[c.windowId := MerchantRow(db, c.windowId)]
           == db.budgetWindows[c.windowId := MerchantRow(db, c.windowId)];
    assert moved.customerMargins[(c.customerId, c.windowId) := CustomerRow(db, scope, c.customerId, c.windowId)]
           == db.customerMargins[(c.customerId, c.windowId) := CustomerRow(db, scope, c.customerId, c.windowId)];
  }

  lemma NewGrantRollsBack(db: Db, scope: Scope, c: Candidate, ceiling: nat, decisionAt: Instant, at: Instant)
    requires NewTo(db, c) && c.request.requestId in db.requests && FundedBy(db, scope, c)
    ensures SqlTransition(WithGrantIn(db, scope, c, ceiling, decisionAt, GrantState.Executing, None),
                          Uuid5Grant(c.request.requestId), Rollback, at)
            == (WithGrantIn(db, scope, c, ceiling, decisionAt, RolledBack, Some(at)), None)
  {
    var executing := WithGrantIn(db, scope, c, ceiling, decisionAt, GrantState.Executing, None);
    var back := WithGrantIn(db, scope, c, ceiling, decisionAt, RolledBack, Some(at));
    var n := |db.grants|;
    var moved := SetState(executing, n, RolledBack, at);
    assert moved == executing.(grants := back.grants, claims := back.claims) by {
      LastClaimIsFound(db, scope, c, ceiling, decisionAt, GrantState.Executing);
      assert executing.grants[n := back.grants[n]] == back.grants;
      assert executing.claims[|db.claims| := back.claims[|db.claims|]] == back.claims;
    }
    ReleaseRestoresPools(db, scope, c, ceiling, moved, executing.grants[n]);
  }

  /** The ledger after a grant was issued, started, and rolled back. */
  function IssuedAndRolledBack(db: Db, scope: Scope, c: Candidate, bps: int, decisionAt: Instant, at: Instant): Db {
    var id := Uuid5Grant(c.request.requestId);
    SqlTransition(SqlTransition(SqlIssue(db, scope, c, bps, decisionAt).1, id, Execute, at).0, id, Rollback, at).0
  }

  lemma RolledBackLedger(db: Db, scope: Scope, c: Candidate, bps: int, decisionAt: Instant, at: Instant)
    returns (ceiling: nat)
    requires NewTo(db, c) && FundedBy(db, scope, c) && SqlIssue(db, scope, c, bps, decisionAt).0.GrantIssued?
    ensures IssuedAndRolledBack(db, scope, c, bps, decisionAt, at)
            == WithGrantIn(WithRequest(db, c.request), scope, c, ceiling, decisionAt, RolledBack, Some(at))
  {
    var db1 := WithRequest(db, c.request);
    ceiling := SqlCeiling(db1, scope, c, bps);
    NewGrantExecutes(db1, scope, c, ceiling, decisionAt, at);
    NewGrantRollsBack(db1, scope, c, ceiling, decisionAt, at);
  }

  lemma RolledBackRowsAsBefore(db: Db, scope: Scope, c: Candidate, ceiling: nat, decisionAt: Instant, at: Instant,
                               customer: CustomerId, w: Window)
    ensures var end := WithGrantIn(WithRequest(db, c.request), scope, c, ceiling, decisionAt, RolledBack, Some(at));
            MerchantRow(end, w) == MerchantRow(db, w)
              && CustomerRow(end, scope, customer, w) == CustomerRow(db, scope, customer, w)
  {
  }

  lemma RolledBackIsNotCounted(db: Db, scope: Scope, c: Candidate, ceiling: nat, decisionAt: Instant, at: Instant,
                               customer: CustomerId, cutoff: Instant)
    requires NewTo(db, c)
    ensures var end := WithGrantIn(WithRequest(db, c.request), scope, c, ceiling, decisionAt, RolledBack, Some(at));
            CountActiveSince(end.requests, end.grants, customer, cutoff)
              == CountActiveSince(db.requests, db.grants, customer, cutoff)
  {
    var end := WithGrantIn(WithRequest(db, c.request), scope, c, ceiling, decisionAt, RolledBack, Some(at));
    assert end.grants[..|db.grants|] == db.grants;
    NewRequestIsNotCounted(db.grants, db.requests, c.request, customer, cutoff);
    assert end.requests == db.requests[c.request.requestId := c.request];
  }

  lemma RolledBackSlotIsFree(db: Db, scope: Scope, c: Candidate, ceiling: nat, decisionAt: Instant, at: Instant,
                             customer: CustomerId, w: Window)
    ensures SlotTaken(WithGrantIn(WithRequest(db, c.request), scope, c, ceiling, decisionAt, RolledBack, Some(at)),
                      customer, w)
            <==> SlotTaken(db, customer, w)
  {
    var end := WithGrantIn(WithRequest(db, c.request), scope, c, ceiling, decisionAt, RolledBack, Some(at));
    assert forall k :: 0 <= k < |db.claims| ==> end.claims[k] == db.claims[k];
    assert !IsActiveClaim(end.claims[|db.claims|], customer, w);
  }

  /** A request meets the same pools, caps and slots in both ledgers. */
  ghost predicate JudgedAlike(a: Db, b: Db, scope: Scope, other: Candidate, at: Instant) {
    && MerchantRow(a, other.windowId) == MerchantRow(b, other.windowId)
    && CustomerRow(a, scope, other.customerId, other.windowId)
       == CustomerRow(b, scope, other.customerId, other.windowId)
    && SqlRefusal(a, scope, other, at) == SqlRefusal(b, scope, other, at)
  }

  lemma RolledBackGrantIsUnnoticed(db: Db, scope: Scope, c: Candidate, ceiling: nat, decisionAt: Instant, at: Instant,
                                   other: Candidate, later: Instant)
    requires NewTo(db, c)
    ensures JudgedAlike(WithGrantIn(WithRequest(db, c.request), scope, c, ceiling, decisionAt, RolledBack, Some(at)),
                        db, scope, other, later)
  {
    RolledBackRowsAsBefore(db, scope, c, ceiling, decisionAt, at, other.customerId, other.windowId);
    RolledBackIsNotCounted(db, scope, c, ceiling, decisionAt, at, other.customerId, later - DAY);
    RolledBackIsNotCounted(db, scope, c, ceiling, decisionAt, at, other.customerId, later - 7 * DAY);
    RolledBackSlotIsFree(db, scope, c, ceiling, decisionAt, at, other.customerId, other.windowId);
  }

  /**
   * Once a grant is rolled back, every other request, of any customer at any time, meets the same
   * pools, caps and slots as if it had never been issued.
   */
  lemma RollbackReturnsEverything(db: Db, scope: Scope, c: Candidate, bps: int, decisionAt: Instant, at: Instant,
                                  other: Candidate, later: Instant)
    requires NewTo(db, c) && FundedBy(db, scope, c) && SqlIssue(db, scope, c, bps, decisionAt).0.GrantIssued?
    ensures JudgedAlike(IssuedAndRolledBack(db, scope, c, bps, decisionAt, at), db, scope, other, later)
  {
    var ceiling := RolledBackLedger(db, scope, c, bps, decisionAt, at);
    RolledBackGrantIsUnnoticed(db, scope, c, ceiling, decisionAt, at, other, later);
  }

  lemma ReleasedGrantIsFinal(db: Db, scope: Scope, c: Candidate, ceiling: nat, decisionAt: Instant, at: Instant,
                             bps: int, later: Instant)
    requires c.request.requestId in db.requests
    ensures var end := WithGrantIn(db, scope, c, ceiling, decisionAt, RolledBack, Some(at));
            && SqlIssue(end, scope, c, bps, later) == (GrantIssued(NewGrant(c, ceiling).(state := RolledBack)), end)
            && SqlTransition(end, Uuid5Grant(c.request.requestId), Execute, later) == (end, Some(IllegalMove))
  {
  }

  /** The request itself stays spent: asking again returns the rolled-back grant, which cannot be executed. */
  lemma RolledBackRequestStaysSpent(db: Db, scope: Scope, c: Candidate, bps: int, decisionAt: Instant, at: Instant,
                                    again: int, later: Instant)
    returns (ceiling: nat)
    requires NewTo(db, c) && FundedBy(db, scope, c) && SqlIssue(db, scope, c, bps, decisionAt).0.GrantIssued?
    ensures var end := IssuedAndRolledBack(db, scope, c, bps, decisionAt, at);
            && SqlIssue(end, scope, c, again, later) == (GrantIssued(NewGrant(c, ceiling).(state := RolledBack)), end)
            && SqlTransition(end, Uuid5Grant(c.request.requestId), Execute, later) == (end, Some(IllegalMove))
  {
    ceiling := RolledBackLedger(db, scope, c, bps, decisionAt, at);
    ReleasedGrantIsFinal(WithRequest(db, c.request), scope, c, ceiling, decisionAt, at, again, later);
  }

  // ---- As the program runs it ----

  class Runner {
    const connection: Connection
    const provider: MockProvider
    var pendingMode: Option<FailureMode>
    var retryCount: nat
    var rollbackCount: nat

    function View(): RunnerState
      reads this, connection, provider
    {
      RunnerState(connection.db, provider.View(), pendingMode, retryCount, rollbackCount)
    }

    constructor (connection: Connection, provider: MockProvider)
      ensures this.connection == connection && this.provider == provider
      ensures View() == RunnerState(connection.db, provider.View(), None, 0, 0)
    {
      this.connection, this.provider := connection, provider;
      pendingMode, retryCount, rollbackCount := None, 0, 0;
    }

    method ExecuteGrant(grant: Grant, windowIndex: int) returns (execution: Execution)
      requires Honest(View())
      modifies this, connection, provider
      ensures (execution, View()) == Executed(old(View()), grant, windowIndex)
      ensures Honest(View())
      ensures execution.Sent? ==> DeliveriesOf(provider.deliveries, grant.grantId) == 1
      ensures execution.Compensated? ==> DeliveriesOf(provider.deliveries, grant.grantId) == 0
    {
      OutcomesAreTruthful(View(), grant, windowIndex);
      ExecutingKeepsHonest(View(), grant, windowIndex);
      execution := StartAndPursue(grant, windowIndex);
    }

    method StartAndPursue(grant: Grant, windowIndex: int) returns (execution: Execution)
      requires Exact(provider.View())
      modifies this, connection, provider
      ensures (execution, View()) == Executed(old(View()), grant, windowIndex)
    {
      var error := connection.Transition(grant.grantId, Execute, grant.sendAfter);
      if error.Some? {
        return LedgerError(error.value);
      }
      execution := Pursue(grant, windowIndex);
    }

    method Pursue(grant: Grant, windowIndex: int) returns (execution: Execution)
      requires Exact(provider.View())
      modifies this, connection, provider
      ensures (execution, View()) == Pursued(old(View()), grant, windowIndex)
    {
      RetriesEnd(ArmedFor(View(), grant.grantId, windowIndex), grant.grantId, grant.channel);
      ArmFailure(grant.grantId, windowIndex);
      var sent := SendWithRetry(grant);
      execution := Settle(grant, sent);
    }

    /** The scripted or requested failure, limited to this grant. */
    method ArmFailure(id: GrantId, windowIndex: int)
      modifies this`pendingMode, provider
      ensures provider.View() == ArmedFor(old(View()), id, windowIndex) && pendingMode == None
    {
      if windowIndex == SCRIPTED_PROVIDER_FAILURE_WINDOW && provider.failureMode.NoFailure?
         && rollbackCount == 0 && pendingMode.None? {
        provider.Arm(HardDown, Some(id));
      }
      if pendingMode.Some? {
        provider.Arm(pendingMode.value, Some(id));
        pendingMode := None;
      }
    }

    /** Compensation if the provider was exhausted, confirmation at the reserved ceiling otherwise. */
    method Settle(grant: Grant, sent: Option<SendOutcome>) returns (execution: Execution)
      requires sent.Some? ==> !sent.value.TimedOut?
      modifies this`rollbackCount, connection, provider
      ensures (execution, View()) == Settled(old(View()), grant, sent)
    {
      if sent.None? {
        var failed := connection.Transition(grant.grantId, Rollback, grant.sendAfter);
        if failed.Some? {
          return LedgerError(failed.value);
        }
        rollbackCount := rollbackCount + 1;
        provider.Disarm();
        return Compensated;
      }
      if !sent.value.Delivered? {
        return UnknownChannel;
      }
      provider.Disarm();
      var error := connection.Transition(grant.grantId, Confirm(grant.ceilingPaise), grant.sendAfter);
      if error.Some? {
        return LedgerError(error.value);
      }
      return Sent(sent.value.attempts, sent.value.deduplicated);
    }

    /** The loop: at most MAX_ATTEMPTS attempts under the same grant. */
    method SendWithRetry(grant: Grant) returns (sent: Option<SendOutcome>)
      requires Exact(provider.View())
      modifies this`retryCount, provider
      ensures var (outcome, after, timeouts) := Sends(old(provider.View()), grant.grantId, grant.channel, MAX_ATTEMPTS);
              sent == outcome && provider.View() == after && retryCount == old(retryCount) + timeouts
    {
      sent := None;
      ghost var total := Sends(provider.View(), grant.grantId, grant.channel, MAX_ATTEMPTS);
      var i := 0;
      while i < MAX_ATTEMPTS
        invariant 0 <= i <= MAX_ATTEMPTS && Exact(provider.View()) && sent.None?
        invariant var (outcome, after, timeouts) := Sends(provider.View(), grant.grantId, grant.channel,
                                                          MAX_ATTEMPTS - i);
                  total == (outcome, after, timeouts + retryCount - old(retryCount)) && retryCount >= old(retryCount)
      {
        var outcome := provider.Send(grant.grantId, grant.channel);
        if !outcome.TimedOut? {
          sent := Some(outcome);
          return;
        }
        retryCount := retryCount + 1;
        i := i + 1;
      }
    }
  }
}
