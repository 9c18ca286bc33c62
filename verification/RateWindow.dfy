/**
 * The rate window as the program keeps it: per agent, a sorted list searched by bisection
 * (sampark/demo/enforcement.py), and the gate over a day's requests (sampark/demo/runner.py).
 */
module RateWindow {
  import opened Clock
  import opened Contracts
  import opened Enforcement
  import opened Reg = Registry
  import opened Wrappers

  ghost predicate Sorted(s: seq<Instant>) {
    forall i, j :: 0 <= i < j < |s| ==> s[i] <= s[j]
  }

  function CountAfter(s: seq<Instant>, cutoff: Instant): nat {
    if s == [] then 0 else CountAfter(s[..|s| - 1], cutoff) + (if s[|s| - 1] > cutoff then 1 else 0)
  }

  lemma {:induction false} CountAfterSplits(a: seq<Instant>, b: seq<Instant>, cutoff: Instant)
    ensures CountAfter(a + b, cutoff) == CountAfter(a, cutoff) + CountAfter(b, cutoff)
  {
    if b == [] {
      assert a + b == a;
    } else {
      assert (a + b)[..|a + b| - 1] == a + b[..|b| - 1];
      CountAfterSplits(a, b[..|b| - 1], cutoff);
    }
  }

  /** In a sorted list the later stamps are those from the bisection point on. */
  lemma {:induction false} CountAfterPoint(s: seq<Instant>, k: nat, cutoff: Instant)
    requires k <= |s| && (forall i :: 0 <= i < k ==> s[i] <= cutoff) && (forall i :: k <= i < |s| ==> s[i] > cutoff)
    ensures CountAfter(s, cutoff) == |s| - k
  {
    if s == [] {
    } else if k == |s| {
      CountAfterPoint(s[..|s| - 1], k - 1, cutoff);
    } else {
      CountAfterPoint(s[..|s| - 1], k, cutoff);
    }
  }

  function Inserted(s: seq<Instant>, k: nat, at: Instant): seq<Instant>
    requires k <= |s|
  {
    s[..k] + [at] + s[k..]
  }

  lemma InsertedCounts(s: seq<Instant>, k: nat, at: Instant, cutoff: Instant)
    requires k <= |s|
    ensures CountAfter(Inserted(s, k, at), cutoff) == CountAfter(s, cutoff) + (if at > cutoff then 1 else 0)
  {
    CountAfterSplits(s[..k] + [at], s[k..], cutoff);
    CountAfterSplits(s[..k], [at], cutoff);
    CountAfterSplits(s[..k], s[k..], cutoff);
    assert s[..k] + s[k..] == s;
    assert [at][..0] == [];
    assert CountAfter([at], cutoff) == if at > cutoff then 1 else 0;
  }

  method BisectRight(s: seq<Instant>, x: Instant) returns (k: nat)
    requires Sorted(s)
    ensures k <= |s| && (forall i :: 0 <= i < k ==> s[i] <= x) && (forall i :: k <= i < |s| ==> s[i] > x)
  {
    var lo, hi := 0, |s|;
    while lo < hi
      invariant 0 <= lo <= hi <= |s|
      invariant (forall i :: 0 <= i < lo ==> s[i] <= x) && (forall i :: hi <= i < |s| ==> s[i] > x)
    {
      var mid := (lo + hi) / 2;
      if x < s[mid] {
        hi := mid;
      } else {
        lo := mid + 1;
      }
    }
    k := lo;
  }

  method Insort(s: seq<Instant>, at: Instant) returns (r: seq<Instant>)
    requires Sorted(s)
    ensures Sorted(r) && multiset(r) == multiset(s) + multiset{at}
    ensures forall cutoff :: CountAfter(r, cutoff) == CountAfter(s, cutoff) + (if at > cutoff then 1 else 0)
  {
    var k := BisectRight(s, at);
    assert s == s[..k] + s[k..];
    forall cutoff
      ensures CountAfter(Inserted(s, k, at), cutoff) == CountAfter(s, cutoff) + (if at > cutoff then 1 else 0)
    {
      InsertedCounts(s, k, at, cutoff);
    }
    r := s[..k] + [at] + s[k..];
  }

  function StampsOf(byAgent: map<AgentId, seq<Instant>>, agent: AgentId): seq<Instant> {
    if agent in byAgent then byAgent[agent] else []
  }

  /** The list of an agent is sorted and counts what the log counts, from any instant on. */
  ghost predicate Tracks(byAgent: map<AgentId, seq<Instant>>, log: seq<Seen>, agent: AgentId) {
    && Sorted(StampsOf(byAgent, agent))
    && forall cutoff :: CountAfter(StampsOf(byAgent, agent), cutoff) == CountSeen(log, agent, cutoff)
  }

  class AgentRateWindow {
    var byAgent: map<AgentId, seq<Instant>>
    ghost var log: seq<Seen>

    ghost predicate Valid()
      reads this
    {
      forall agent :: Tracks(byAgent, log, agent)
    }

    constructor ()
      ensures Valid() && log == []
    {
      byAgent, log := map[], [];
    }

    method CountInWindow(agent: AgentId, at: Instant) returns (n: nat)
      requires Valid()
      ensures n == CountSeen(log, agent, at - RATE_WINDOW)
    {
      assert Tracks(byAgent, log, agent);
      if agent !in byAgent || byAgent[agent] == [] {
        return 0;
      }
      var stamps := byAgent[agent];
      var k := BisectRight(stamps, at - RATE_WINDOW);
      CountAfterPoint(stamps, k, at - RATE_WINDOW);
      n := |stamps| - k;
    }

    method Record(agent: AgentId, at: Instant)
      requires Valid()
      modifies this
      ensures Valid() && log == old(log) + [Seen(agent, at)]
    {
      assert Tracks(byAgent, log, agent);
      var stamps := StampsOf(byAgent, agent);
      var inserted := Insort(stamps, at);
      ghost var before, seen := byAgent, log;
      byAgent := byAgent[agent := inserted];
      log := log + [Seen(agent, at)];
      forall a ensures Tracks(byAgent, log, a) {
        assert Tracks(before, seen, a);
        forall cutoff ensures CountAfter(StampsOf(byAgent, a), cutoff) == CountSeen(log, a, cutoff) {
          SeenOneMore(seen, Seen(agent, at), a, cutoff);
        }
      }
    }

    method Reset()
      modifies this
      ensures Valid() && log == []
    {
      byAgent, log := map[], [];
    }
  }

  /** The count is taken before the request itself is recorded, and the request is recorded either way. */
  method EvaluateAgentRate(r: GrantRequest, maxRequestsPerHour: nat, window: AgentRateWindow) returns (exceeded: bool)
    requires window.Valid()
    modifies window
    ensures window.Valid() && window.log == old(window.log) + [Seen(r.agentId, r.issuedAt)]
    ensures exceeded <==> CountSeen(old(window.log), r.agentId, r.issuedAt - RATE_WINDOW) >= maxRequestsPerHour
  {
    var count := window.CountInWindow(r.agentId, r.issuedAt);
    window.Record(r.agentId, r.issuedAt);
    return count >= maxRequestsPerHour;
  }

  datatype ReasonFamily = RateCeiling | AnotherReason

  class AgentRepository {
    var records: map<AgentId, AgentRecord>

    constructor (records: map<AgentId, AgentRecord>)
      ensures this.records == records
    {
      this.records := records;
    }

    method SaveAgent(id: AgentId, record: AgentRecord)
      modifies this
      ensures records == old(records)[id := record]
    {
      records := records[id := record];
    }
  }

  /** Nothing but a breach of the rate ceiling strikes, and only an active agent can be struck. */
  method RecordStageTwoStrike(repo: AgentRepository, id: AgentId, record: AgentRecord, reason: ReasonFamily)
    returns (result: Result<bool, StrikeError>)
    modifies repo
    ensures reason.AnotherReason? ==> result == Err(NotStrikeWorthy)
    ensures reason.RateCeiling? && !record.agent.active ==> result == Err(NotActive)
    ensures result.Err? ==> repo.records == old(repo.records)
    ensures reason.RateCeiling? && record.agent.active ==>
              var struck := record.(strikes := record.strikes + 1,
                                    agent := record.agent.(active := record.strikes + 1 < STRIKE_THRESHOLD));
              repo.records == old(repo.records)[id := struck] && result == Ok(!struck.agent.active)
  {
    if !reason.RateCeiling? {
      return Err(NotStrikeWorthy);
    }
    var wasActive := record.agent.active;
    var updated := ApplyStrike(record);
    if updated.Err? {
      return Err(updated.error);
    }
    repo.SaveAgent(id, updated.value);
    return Ok(wasActive && !updated.value.agent.active);
  }

  function Askings(requests: seq<GrantRequest>): seq<Event> {
    if requests == [] then [] else Askings(requests[..|requests| - 1]) + [Asking(requests[|requests| - 1])]
  }

  function Survivors(verdicts: seq<(GrantRequest, Verdict)>): seq<GrantRequest> {
    if verdicts == [] then [] else
      Survivors(verdicts[..|verdicts| - 1]) + (if verdicts[|verdicts| - 1].1.Admitted? then [verdicts[|verdicts| - 1].0]
                                               else [])
  }

  class Gatekeeper {
    const repo: AgentRepository
    const window: AgentRateWindow
    const checks: Checks

    constructor (repo: AgentRepository, window: AgentRateWindow, checks: Checks)
      ensures this.repo == repo && this.window == window && this.checks == checks
    {
      this.repo, this.window, this.checks := repo, window, checks;
    }

    ghost function View(): State
      reads repo, window
    {
      State(repo.records, window.log)
    }

    /** One request: scope, then rate, then the strike. */
    method Ask(r: GrantRequest) returns (verdict: Verdict)
      requires window.Valid()
      modifies repo, window
      ensures window.Valid() && (verdict, View()) == Gate(checks, old(View()), r)
    {
      var scopeDenial := EvaluateScope(RegistryOf(checks, repo.records), r);
      if scopeDenial.Some? {
        return DeniedOnScope(scopeDenial.value);
      }
      var record := repo.records[r.agentId];
      var exceeded := EvaluateAgentRate(r, record.maxRequestsPerHour, window);
      if !exceeded {
        return Admitted;
      }
      var strike := RecordStageTwoStrike(repo, r.agentId, record, RateCeiling);
      return RateCeilingExceeded(strike.value);
    }

    /** A window's arriving requests; the survivors go on to be mediated. */
    method FilterArriving(arriving: seq<GrantRequest>) returns (survivors: seq<GrantRequest>)
      requires window.Valid()
      modifies repo, window
      ensures window.Valid()
      ensures var h := AllHappen(checks, old(View()), Askings(arriving));
              View() == h.state && survivors == Survivors(h.verdicts)
    {
      survivors := [];
      ghost var start := View();
      assert arriving[..0] == [];
      for i := 0 to |arriving|
        invariant window.Valid()
        invariant var h := AllHappen(checks, start, Askings(arriving[..i]));
                  View() == h.state && survivors == Survivors(h.verdicts)
      {
        ghost var h := AllHappen(checks, start, Askings(arriving[..i]));
        AskedOneMore(checks, start, arriving[..i], arriving[i]);
        assert arriving[..i + 1] == arriving[..i] + [arriving[i]];
        var verdict := Ask(arriving[i]);
        if verdict.Admitted? {
          survivors := survivors + [arriving[i]];
        }
      }
      assert arriving[..|arriving|] == arriving;
    }
  }

  lemma AskedOneMore(checks: Checks, start: State, before: seq<GrantRequest>, r: GrantRequest)
    ensures var h, h' := AllHappen(checks, start, Askings(before)), AllHappen(checks, start, Askings(before + [r]));
            var (verdict, state) := Gate(checks, h.state, r);
            && h' == History(h.verdicts + [(r, verdict)], state)
            && Survivors(h'.verdicts) == Survivors(h.verdicts) + (if verdict.Admitted? then [r] else [])
  {
    assert (before + [r])[..|before|] == before;
    var events := Askings(before + [r]);
    assert events == Askings(before) + [Asking(r)];
    assert events[..|events| - 1] == Askings(before);
    var h := AllHappen(checks, start, Askings(before));
    var verdict := Gate(checks, h.state, r).0;
    assert (h.verdicts + [(r, verdict)])[..|h.verdicts|] == h.verdicts;
  }
}
