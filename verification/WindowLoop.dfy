/**
 * A whole mediated run (sim/arm_b.py, sampark/mediation/service.py): one IST day at a time, new
 * requests and carried-over candidates are mediated, grants are executed against the simulated
 * world, and deferred candidates are carried to the next day.
 *
 * The simulated world is an oracle: whether the n-th contact of the run recovers its risk item.
 */
module WindowLoop {
  import opened Allocator
  import opened Clock
  import opened Contracts
  import opened HardFilter
  import opened Ledger
  import opened Margin
  import opened Registry
  import opened Sorting
  import opened Wrappers

  datatype Action = Action(
    agentId: AgentId, riskId: RiskId, customerId: CustomerId, channel: string, intent: string,
    incentiveBps: nat, scheduledAt: Instant)

  datatype Contact = Contact(
    agentId: AgentId, customerId: CustomerId, riskId: RiskId, channel: string, incentiveBps: int,
    contactedAt: Instant, recovered: bool, amountRecoveredPaise: int, incentivePaise: int)

  type Oracle = (nat, Candidate, int) -> bool

  datatype Decision =
    | ScopeDenied(requestId: RequestId, reason: ScopeReason)
    | Decided(outcome: Outcome)

  datatype RunSetup = RunSetup(
    setup: Setup, optOuts: OptOuts, registry: Registry, requestIdFor: (AgentId, RiskId) -> RequestId)

  datatype RunError =
    | CandidateRejected(candidateError: CandidateError)
    | LifecycleFailed(lifecycleError: LifecycleError)
    | DuplicateObservation(riskId: RiskId)

  datatype Run = Run(tables: Tables, carried: seq<Candidate>, decisions: seq<Decision>, contacts: seq<Contact>)

  function Initial(): Run {
    Run(EMPTY, [], [], [])
  }

  // ---- Arrival ----

  function AdjustedArrival(a: Action): Instant {
    if LocalHour(a.scheduledAt) < QUIET_HOURS_END_HOUR then WindowStartFor(WindowIdFor(a.scheduledAt))
      else a.scheduledAt
  }

  function ArrivalWindow(a: Action): Window {
    WindowIdFor(AdjustedArrival(a))
  }

  function FirstWindow(actions: seq<Action>): Window
    requires actions != []
  {
    if |actions| == 1 then ArrivalWindow(actions[0]) else Min(ArrivalWindow(actions[0]), FirstWindow(actions[1..]))
  }

  function LastArrival(actions: seq<Action>): Window
    requires actions != []
  {
    if |actions| == 1 then ArrivalWindow(actions[0]) else Max(ArrivalWindow(actions[0]), LastArrival(actions[1..]))
  }

  function LastWindow(actions: seq<Action>): Window
    requires actions != []
  {
    LastArrival(actions) + MAX_DEFERRAL_WINDOWS + 1
  }

  function ArrivingIn(actions: seq<Action>, w: Window): seq<Action> {
    if actions == [] then [] else
      (if ArrivalWindow(actions[0]) == w then [actions[0]] else []) + ArrivingIn(actions[1..], w)
  }

  predicate ActionLe(a: Action, b: Action) {
    a.agentId < b.agentId || (a.agentId == b.agentId && a.riskId <= b.riskId)
  }

  function NewActions(actions: seq<Action>, w: Window): seq<Action> {
    Sort(ArrivingIn(actions, w), ActionLe)
  }

  function ToGrantRequest(cfg: RunSetup, a: Action): GrantRequest {
    GrantRequest(cfg.requestIdFor(a.agentId, a.riskId), a.agentId, a.customerId, a.riskId, a.intent, a.channel,
                 a.incentiveBps, a.scheduledAt)
  }

  // ---- One window ----

  datatype Intake = Intake(decisions: seq<Decision>, candidates: seq<Candidate>)

  /** Scope-checks each new request, once, and builds the candidates of the verified ones. */
  function TakeIn(cfg: RunSetup, actions: seq<Action>): Result<Intake, RunError> {
    if actions == [] then Ok(Intake([], [])) else
      var n := |actions| - 1;
      match TakeIn(cfg, actions[..n])
      case Err(e) => Err(e)
      case Ok(earlier) =>
        var request := ToGrantRequest(cfg, actions[n]);
        match EvaluateScope(cfg.registry, request)
        case Some(reason) => Ok(earlier.(decisions := earlier.decisions + [ScopeDenied(request.requestId, reason)]))
        case None =>
          var record := cfg.registry.riskItems[request.riskId];
          match BuildCandidate(request, record.0, record.1, AdjustedArrival(actions[n]))
          case Err(e) => Err(CandidateRejected(e))
          case Ok(c) => Ok(earlier.(candidates := earlier.candidates + [c]))
  }

  function DecisionsOf(outcomes: seq<Outcome>): seq<Decision> {
    if outcomes == [] then [] else [Decided(outcomes[0])] + DecisionsOf(outcomes[1..])
  }

  function RescheduledOf(outcomes: seq<Outcome>): seq<Candidate> {
    if outcomes == [] then [] else
      (if outcomes[0].rescheduled.Some? then [outcomes[0].rescheduled.value] else []) + RescheduledOf(outcomes[1..])
  }

  predicate Observed(contacts: seq<Contact>, risk: RiskId) {
    exists i :: 0 <= i < |contacts| && contacts[i].riskId == risk
  }

  /** What the world does with a contact: all or nothing, at the incentive actually granted. */
  function Observe(c: Candidate, grant: Grant, bps: int, recovered: bool): Contact {
    var amount := if recovered then c.item.amountPaise else 0;
    Contact(c.request.agentId, c.request.customerId, c.request.riskId, grant.channel, bps, grant.sendAfter,
            recovered, amount, if recovered then amount * bps / BPS else 0)
  }

  /** Executes, observes and confirms one granted outcome. */
  function ExecuteGrant(cfg: RunSetup, oracle: Oracle, run: Run, c: Candidate, grant: Grant,
                        bps: int): Result<Run, RunError>
  {
    match Transition(cfg.setup.world, run.tables, grant.grantId, Execute, grant.sendAfter)
    case Err(e) => Err(LifecycleFailed(e))
    case Ok(executing) =>
      if Observed(run.contacts, c.request.riskId) then Err(DuplicateObservation(c.request.riskId)) else
        var contact := Observe(c, grant, bps, oracle(|run.contacts|, c, bps));
        match Transition(cfg.setup.world, executing, grant.grantId, Confirm(contact.incentivePaise), grant.sendAfter)
        case Err(e) => Err(LifecycleFailed(e))
        case Ok(confirmed) => Ok(run.(tables := confirmed, contacts := run.contacts + [contact]))
  }

  function ExecuteGrants(cfg: RunSetup, oracle: Oracle, run: Run, outcomes: seq<Outcome>): Result<Run, RunError>
    decreases |outcomes|
  {
    if outcomes == [] then Ok(run)
    else if outcomes[0].grant.None? || outcomes[0].effectiveBps.None?
      then ExecuteGrants(cfg, oracle, run, outcomes[1..])
    else
      match ExecuteGrant(cfg, oracle, run, outcomes[0].candidate, outcomes[0].grant.value,
                         outcomes[0].effectiveBps.value)
      case Err(e) => Err(e)
      case Ok(next) => ExecuteGrants(cfg, oracle, next, outcomes[1..])
  }

  /** mediate_window: the decisions and the ledger, before anything is executed. */
  function MediateWindow(cfg: RunSetup, run: Run, w: Window, intake: Intake): (seq<Outcome>, Run) {
    var (outcomes, t) := FilterAndAllocate(cfg.setup, cfg.optOuts, WindowStartFor(w), run.tables,
                                           run.carried + intake.candidates);
    (outcomes,
     run.(tables := t, carried := RescheduledOf(outcomes),
          decisions := run.decisions + intake.decisions + DecisionsOf(outcomes)))
  }

  function RunWindow(cfg: RunSetup, oracle: Oracle, run: Run, w: Window, actions: seq<Action>): Result<Run, RunError> {
    match TakeIn(cfg, NewActions(actions, w))
    case Err(e) => Err(e)
    case Ok(intake) =>
      var (outcomes, mediated) := MediateWindow(cfg, run, w, intake);
      ExecuteGrants(cfg, oracle, mediated, outcomes)
  }

  // ---- The run ----

  /** The windows from `w` up to but excluding `end`, in order. */
  function RunWindows(cfg: RunSetup, oracle: Oracle, run: Run, w: Window, end: Window, actions: seq<Action>)
    : Result<Run, RunError>
    decreases end - w
  {
    if w >= end then Ok(run) else
      match RunWindow(cfg, oracle, run, w, actions)
      case Err(e) => Err(e)
      case Ok(next) => RunWindows(cfg, oracle, next, w + 1, end, actions)
  }

  function RunLoop(cfg: RunSetup, oracle: Oracle, actions: seq<Action>): Result<Run, RunError> {
    if actions == [] then Ok(Initial())
    else RunWindows(cfg, oracle, Initial(), FirstWindow(actions), LastWindow(actions) + 1, actions)
  }
}
