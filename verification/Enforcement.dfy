/**
 * The agent rate ceiling and its strikes (sampark/demo/enforcement.py, sampark/registry/strikes.py),
 * and the gate the demo runs requests through (sampark/demo/runner.py).
 *
 * Agents, their scopes and their strikes are what the registry stores; every request that reaches
 * the rate check is logged, admitted or not.
 */
module Enforcement {
  import opened Clock
  import opened Contracts
  import opened Counting
  import opened Reg = Registry
  import opened Wrappers

  const STRIKE_THRESHOLD := 3
  const RATE_WINDOW: int := HOUR

  datatype AgentRecord = AgentRecord(agent: Agent, maxRequestsPerHour: nat, strikes: nat)

  datatype Seen = Seen(agentId: AgentId, issuedAt: Instant)

  /** How signatures are checked, and the risk items on record. */
  datatype Checks = Checks(signed: GrantRequest -> bool, riskItems: RiskItems)

  datatype State = State(records: map<AgentId, AgentRecord>, log: seq<Seen>)

  datatype Verdict = DeniedOnScope(reason: ScopeReason) | RateCeilingExceeded(newlyRevoked: bool) | Admitted

  datatype StrikeError = NotActive | NotStrikeWorthy

  function RegistryOf(checks: Checks, records: map<AgentId, AgentRecord>): Registry {
    Registry(map id | id in records :: records[id].agent, checks.signed, checks.riskItems)
  }

  /** Requests of an agent later than `cutoff`, by looking at every one of them. */
  function CountSeen(log: seq<Seen>, agent: AgentId, cutoff: Instant): nat {
    if log == [] then 0 else
      var last := log[|log| - 1];
      CountSeen(log[..|log| - 1], agent, cutoff) + (if last.agentId == agent && last.issuedAt > cutoff then 1 else 0)
  }

  function ApplyStrike(record: AgentRecord): Result<AgentRecord, StrikeError> {
    if !record.agent.active then Err(NotActive) else
      var strikes := record.strikes + 1;
      Ok(record.(strikes := strikes, agent := record.agent.(active := strikes < STRIKE_THRESHOLD)))
  }

  /** One request through both stages. */
  function Gate(checks: Checks, s: State, r: GrantRequest): (Verdict, State) {
    var scopeDenial := EvaluateScope(RegistryOf(checks, s.records), r);
    if scopeDenial.Some? then (DeniedOnScope(scopeDenial.value), s) else
      var record := s.records[r.agentId];
      var logged := s.(log := s.log + [Seen(r.agentId, r.issuedAt)]);
      if CountSeen(s.log, r.agentId, r.issuedAt - RATE_WINDOW) < record.maxRequestsPerHour then (Admitted, logged) else
        var struck := ApplyStrike(record).value;
        (RateCeilingExceeded(!struck.agent.active), logged.(records := s.records[r.agentId := struck]))
  }

  datatype Event = Asking(request: GrantRequest) | Revoking(agentId: AgentId)

  function Revoke(s: State, id: AgentId): State {
    if id in s.records
      then s.(records := s.records[id := s.records[id].(agent := s.records[id].agent.(active := false))]) else s
  }

  /** The history of verdicts, and the state it leaves. */
  datatype History = History(verdicts: seq<(GrantRequest, Verdict)>, state: State)

  function Happens(checks: Checks, h: History, event: Event): History {
    match event
    case Revoking(id) => h.(state := Revoke(h.state, id))
    case Asking(r) =>
      var (verdict, state) := Gate(checks, h.state, r);
      History(h.verdicts + [(r, verdict)], state)
  }

  function AllHappen(checks: Checks, start: State, events: seq<Event>): History {
    if events == [] then History([], start)
    else Happens(checks, AllHappen(checks, start, events[..|events| - 1]), events[|events| - 1])
  }

  // ---- The gate ----

  /** An earlier request of this agent, less than an hour before. */
  ghost predicate InHourBefore(x: Seen, agent: AgentId, at: Instant) {
    x.agentId == agent && x.issuedAt > at - 3_600_000_000
  }

  lemma {:induction false} CountSeenIs(log: seq<Seen>, agent: AgentId, at: Instant)
    ensures CountSeen(log, agent, at - RATE_WINDOW) == |Where(log, (x: Seen) => InHourBefore(x, agent, at))|
  {
    var p := (x: Seen) => InHourBefore(x, agent, at);
    if log == [] {
      assert Where(log, p) == {};
    } else {
      CountSeenIs(log[..|log| - 1], agent, at);
      WhereLast(log, p);
    }
  }

  /**
   * The gate in full: a request out of scope leaves no trace; any other is logged, and admitted exactly
   * if its agent made fewer requests in the hour before than it may.  One too many is a strike, and the
   * third strike revokes the agent.
   */
  lemma GateMeans(checks: Checks, s: State, r: GrantRequest)
    ensures var (verdict, s') := Gate(checks, s, r);
            var denial := EvaluateScope(RegistryOf(checks, s.records), r);
            if denial.Some? then verdict == DeniedOnScope(denial.value) && s' == s
            else
              && r.agentId in s.records && s'.log == s.log + [Seen(r.agentId, r.issuedAt)]
              && var record := s.records[r.agentId];
                 if |Where(s.log, (x: Seen) => InHourBefore(x, r.agentId, r.issuedAt))| < record.maxRequestsPerHour
                 then verdict == Admitted && s'.records == s.records
                 else
                   && verdict == RateCeilingExceeded(record.strikes >= 2)
                   && s'.records == s.records[r.agentId :=
                        AgentRecord(record.agent.(active := record.strikes < 2), record.maxRequestsPerHour,
                                    record.strikes + 1)]
  {
    CountSeenIs(s.log, r.agentId, r.issuedAt);
    hide CountSeen, Where;
  }

  // ---- The ceiling holds in every hour ----

  function CountVerdicts(verdicts: seq<(GrantRequest, Verdict)>, which: ((GrantRequest, Verdict)) -> bool): nat {
    if verdicts == [] then 0 else
      CountVerdicts(verdicts[..|verdicts| - 1], which) + (if which(verdicts[|verdicts| - 1]) then 1 else 0)
  }

  /** Admitted requests of an agent issued in the hour up to `end`. */
  function AdmittedInHour(agent: AgentId, end: Instant): ((GrantRequest, Verdict)) -> bool {
    (v: (GrantRequest, Verdict)) => v.1.Admitted? && v.0.agentId == agent && end - RATE_WINDOW < v.0.issuedAt <= end
  }

  lemma CountOneMore(verdicts: seq<(GrantRequest, Verdict)>, v: (GrantRequest, Verdict),
                     which: ((GrantRequest, Verdict)) -> bool)
    ensures CountVerdicts(verdicts + [v], which) == CountVerdicts(verdicts, which) + (if which(v) then 1 else 0)
  {
    assert (verdicts + [v])[..|verdicts|] == verdicts;
  }

  lemma SeenOneMore(log: seq<Seen>, entry: Seen, agent: AgentId, cutoff: Instant)
    ensures CountSeen(log + [entry], agent, cutoff)
            == CountSeen(log, agent, cutoff) + (if entry.agentId == agent && entry.issuedAt > cutoff then 1 else 0)
  {
    assert (log + [entry])[..|log|] == log;
  }

  /** Admitted requests of an hour are among those the log holds from its start, or from any earlier time. */
  lemma {:induction false} AdmittedWereLogged(checks: Checks, start: State, events: seq<Event>, agent: AgentId,
                                              end: Instant, cutoff: Instant)
    requires cutoff <= end - RATE_WINDOW
    ensures var h := AllHappen(checks, start, events);
            CountVerdicts(h.verdicts, AdmittedInHour(agent, end)) <= CountSeen(h.state.log, agent, cutoff)
  {
    if events != [] {
      var before, event := AllHappen(checks, start, events[..|events| - 1]), events[|events| - 1];
      AdmittedWereLogged(checks, start, events[..|events| - 1], agent, end, cutoff);
      if event.Asking? {
        var r := event.request;
        CountOneMore(before.verdicts, (r, Gate(checks, before.state, r).0), AdmittedInHour(agent, end));
        SeenOneMore(before.state.log, Seen(r.agentId, r.issuedAt), agent, cutoff);
      }
    }
  }

  ghost predicate Ceiling(s: State, agent: AgentId, max: nat) {
    agent in s.records ==> s.records[agent].maxRequestsPerHour == max
  }

  lemma {:induction false} CeilingIsFixed(checks: Checks, start: State, events: seq<Event>, agent: AgentId, max: nat)
    requires Ceiling(start, agent, max)
    ensures Ceiling(AllHappen(checks, start, events).state, agent, max)
  {
    if events != [] {
      CeilingIsFixed(checks, start, events[..|events| - 1], agent, max);
    }
  }

  /**
   * No hour, wherever it starts, holds more admitted requests of an agent than its ceiling: for every
   * sequence of requests, whatever their instants and the order they are processed in.
   */
  lemma {:induction false} EveryHourIsWithinTheCeiling(checks: Checks, start: State, events: seq<Event>, agent: AgentId,
                                                       end: Instant, max: nat)
    requires Ceiling(start, agent, max)
    ensures CountVerdicts(AllHappen(checks, start, events).verdicts, AdmittedInHour(agent, end)) <= max
  {
    if events != [] {
      var before, event := AllHappen(checks, start, events[..|events| - 1]), events[|events| - 1];
      EveryHourIsWithinTheCeiling(checks, start, events[..|events| - 1], agent, end, max);
      if event.Asking? {
        var r := event.request;
        var verdict := Gate(checks, before.state, r).0;
        CountOneMore(before.verdicts, (r, verdict), AdmittedInHour(agent, end));
        if AdmittedInHour(agent, end)((r, verdict)) {
          CeilingIsFixed(checks, start, events[..|events| - 1], agent, max);
          AdmittedWereLogged(checks, start, events[..|events| - 1], agent, end, r.issuedAt - RATE_WINDOW);
        }
      }
    }
  }

  // ---- Strikes ----

  function BreachOf(agent: AgentId): ((GrantRequest, Verdict)) -> bool {
    (v: (GrantRequest, Verdict)) => v.1.RateCeilingExceeded? && v.0.agentId == agent
  }

  function RevocationOf(agent: AgentId): ((GrantRequest, Verdict)) -> bool {
    (v: (GrantRequest, Verdict)) => v.1.RateCeilingExceeded? && v.1.newlyRevoked && v.0.agentId == agent
  }

  /** Agents start unstruck and active. */
  ghost predicate CleanSlate(s: State) {
    forall id :: id in s.records ==> s.records[id].strikes == 0 && s.records[id].agent.active
  }

  /** One strike per breach; revoked at the third, or by hand. */
  ghost predicate Tallied(h: History, agent: AgentId, byHand: bool) {
    var breaches := CountVerdicts(h.verdicts, BreachOf(agent));
    && CountVerdicts(h.verdicts, RevocationOf(agent)) == (if breaches == STRIKE_THRESHOLD then 1 else 0)
    && breaches <= STRIKE_THRESHOLD
    && (agent in h.state.records ==>
          && h.state.records[agent].strikes == breaches
          && (h.state.records[agent].agent.active <==> breaches < STRIKE_THRESHOLD && !byHand))
    && (agent !in h.state.records ==> breaches == 0)
  }

  lemma GateKeepsTally(checks: Checks, h: History, r: GrantRequest, agent: AgentId, byHand: bool)
    requires Tallied(h, agent, byHand)
    ensures Tallied(Happens(checks, h, Asking(r)), agent, byHand)
  {
    var verdict := Gate(checks, h.state, r).0;
    CountOneMore(h.verdicts, (r, verdict), BreachOf(agent));
    CountOneMore(h.verdicts, (r, verdict), RevocationOf(agent));
  }

  /**
   * In every run an agent's strikes are exactly its rate breaches; it turns from active to revoked at
   * the third, which is reported once and never followed by another, or when revoked by hand.
   */
  lemma {:induction false} StrikesAreBreaches(checks: Checks, start: State, events: seq<Event>, agent: AgentId)
    requires CleanSlate(start)
    ensures Tallied(AllHappen(checks, start, events), agent, Revoking(agent) in events)
  {
    if events != [] {
      var before, event := events[..|events| - 1], events[|events| - 1];
      StrikesAreBreaches(checks, start, before, agent);
      assert events == before + [event];
      assert Revoking(agent) in events <==> Revoking(agent) in before || event == Revoking(agent);
      if event.Asking? {
        GateKeepsTally(checks, AllHappen(checks, start, before), event.request, agent, Revoking(agent) in before);
      }
    }
  }

  /** A revoked agent is turned away on scope: it is neither counted, nor struck again. */
  lemma RevokedIsTurnedAway(checks: Checks, s: State, r: GrantRequest)
    requires r.agentId in s.records && !s.records[r.agentId].agent.active
    ensures Gate(checks, s, r).0.DeniedOnScope? && Gate(checks, s, r).1 == s
  {
  }
}
