/**
 * The contact provider of the demo (sampark/demo/provider.py): an idempotency store in front of the
 * channels, with failures that can be armed and disarmed at any time.
 */
module Provider {
  import opened Contracts
  import opened Wrappers

  const MAX_ATTEMPTS := 2

  datatype FailureMode = NoFailure | TimeoutThenSuccess | AcceptThenTimeout | HardDown

  datatype Receipt = Receipt(grantId: GrantId, channel: string)

  datatype SendOutcome =
    | Delivered(receipt: Receipt, attempts: nat, deduplicated: bool)
    | TimedOut(attempt: nat, mode: FailureMode)
    | NoSuchChannel

  /** Everything the provider remembers; `deliveries` is every time a channel was really contacted. */
  datatype ProviderState = ProviderState(
    failureMode: FailureMode, targeted: Option<GrantId>,
    accepted: map<GrantId, Receipt>, attempts: map<GrantId, nat>, deliveries: seq<GrantId>)

  const NEW_PROVIDER := ProviderState(NoFailure, None, map[], map[], [])

  predicate AppliesTo(s: ProviderState, id: GrantId) {
    !s.failureMode.NoFailure? && (s.targeted.None? || s.targeted == Some(id))
  }

  predicate HasChannel(channel: string) {
    channel in {"sms", "whatsapp", "voice"}
  }

  function AttemptsFor(s: ProviderState, id: GrantId): nat {
    if id in s.attempts then s.attempts[id] else 0
  }

  /** The channel is contacted and the receipt kept. */
  function Deliver(s: ProviderState, id: GrantId, channel: string): ProviderState {
    s.(accepted := s.accepted[id := Receipt(id, channel)], deliveries := s.deliveries + [id])
  }

  /** One attempt to send a grant's contact. */
  function Attempt(s: ProviderState, id: GrantId, channel: string): (SendOutcome, ProviderState) {
    var attempt := AttemptsFor(s, id) + 1;
    var s1 := s.(attempts := s.attempts[id := attempt]);
    if id in s.accepted then
      (Delivered(s.accepted[id], attempt, true), s1)
    else if AppliesTo(s, id) && s.failureMode.HardDown? then
      (TimedOut(attempt, HardDown), s1)
    else if AppliesTo(s, id) && s.failureMode.TimeoutThenSuccess? && attempt == 1 then
      (TimedOut(attempt, TimeoutThenSuccess), s1)
    else if !HasChannel(channel) then
      (NoSuchChannel, s1)
    else if AppliesTo(s, id) && s.failureMode.AcceptThenTimeout? && attempt == 1 then
      (TimedOut(attempt, AcceptThenTimeout), Deliver(s1, id, channel))
    else
      (Delivered(Receipt(id, channel), attempt, false), Deliver(s1, id, channel))
  }

  datatype Call = Arm(mode: FailureMode, target: Option<GrantId>) | Disarm | SendCall(id: GrantId, channel: string)

  function After(s: ProviderState, call: Call): ProviderState {
    match call
    case Arm(mode, target) => s.(failureMode := mode, targeted := target)
    case Disarm => s.(failureMode := NoFailure, targeted := None)
    case SendCall(id, channel) => Attempt(s, id, channel).1
  }

  function AfterAll(calls: seq<Call>): ProviderState {
    if calls == [] then NEW_PROVIDER else After(AfterAll(calls[..|calls| - 1]), calls[|calls| - 1])
  }

  function DeliveriesOf(deliveries: seq<GrantId>, id: GrantId): nat {
    if deliveries == [] then 0 else
      DeliveriesOf(deliveries[..|deliveries| - 1], id) + (if deliveries[|deliveries| - 1] == id then 1 else 0)
  }

  /** A grant was delivered once if the provider has accepted it, and never otherwise. */
  ghost predicate Exact(s: ProviderState) {
    forall id :: DeliveriesOf(s.deliveries, id) == if id in s.accepted then 1 else 0
  }

  lemma DeliverCounts(s: ProviderState, id: GrantId, channel: string, other: GrantId)
    ensures DeliveriesOf(Deliver(s, id, channel).deliveries, other)
            == DeliveriesOf(s.deliveries, other) + (if other == id then 1 else 0)
  {
    assert (s.deliveries + [id])[..|s.deliveries|] == s.deliveries;
  }

  lemma CallKeepsExact(s: ProviderState, call: Call)
    requires Exact(s)
    ensures Exact(After(s, call))
  {
    if call.SendCall? {
      var s' := After(s, call);
      forall id ensures DeliveriesOf(s'.deliveries, id) == if id in s'.accepted then 1 else 0 {
        assert DeliveriesOf(s.deliveries, id) == if id in s.accepted then 1 else 0;
        DeliverCounts(s.(attempts := s.attempts[call.id := AttemptsFor(s, call.id) + 1]), call.id, call.channel, id);
      }
    }
  }

  /** Whatever is armed, disarmed and sent, in any order: no grant ever contacts a channel twice. */
  lemma {:induction false} NoDoubleSend(calls: seq<Call>)
    ensures Exact(AfterAll(calls))
  {
    if calls != [] {
      NoDoubleSend(calls[..|calls| - 1]);
      CallKeepsExact(AfterAll(calls[..|calls| - 1]), calls[|calls| - 1]);
    }
  }

  /** A second attempt after an accepted-but-unanswered first one returns the stored receipt and contacts nobody. */
  lemma RetryIsDeduplicated(s: ProviderState, id: GrantId, channel: string, again: string)
    requires Attempt(s, id, channel).0.TimedOut? && Attempt(s, id, channel).0.mode.AcceptThenTimeout?
    ensures var s1 := Attempt(s, id, channel).1;
            var (r, s2) := Attempt(s1, id, again);
            r.Delivered? && r.deduplicated && r.receipt == Receipt(id, channel) && s2.deliveries == s1.deliveries
  {
  }

  // ---- As the program holds it ----

  class MockProvider {
    var failureMode: FailureMode
    var targetedGrantId: Option<GrantId>
    var accepted: map<GrantId, Receipt>
    var attempts: map<GrantId, nat>
    var deliveries: seq<GrantId>

    function View(): ProviderState
      reads this
    {
      ProviderState(failureMode, targetedGrantId, accepted, attempts, deliveries)
    }

    constructor ()
      ensures View() == NEW_PROVIDER && Exact(View())
    {
      failureMode, targetedGrantId, accepted, attempts, deliveries := NoFailure, None, map[], map[], [];
    }

    method Arm(mode: FailureMode, target: Option<GrantId>)
      modifies this
      ensures View() == After(old(View()), Call.Arm(mode, target))
    {
      failureMode, targetedGrantId := mode, target;
    }

    method Disarm()
      modifies this
      ensures View() == After(old(View()), Call.Disarm)
    {
      failureMode, targetedGrantId := NoFailure, None;
    }

    /** Idempotency first, before any failure can be injected. */
    method Send(id: GrantId, channel: string) returns (outcome: SendOutcome)
      requires Exact(View())
      modifies this
      ensures (outcome, View()) == Attempt(old(View()), id, channel)
      ensures Exact(View())
      ensures outcome.Delivered? ==> DeliveriesOf(deliveries, id) == 1
      ensures old(deliveries) <= deliveries
    {
      CallKeepsExact(View(), SendCall(id, channel));
      var attempt := (if id in attempts then attempts[id] else 0) + 1;
      attempts := attempts[id := attempt];
      if id in accepted {
        return Delivered(accepted[id], attempt, true);
      }
      var applies := !failureMode.NoFailure? && (targetedGrantId.None? || targetedGrantId == Some(id));
      if applies && failureMode.HardDown? {
        return TimedOut(attempt, HardDown);
      }
      if applies && failureMode.TimeoutThenSuccess? && attempt == 1 {
        return TimedOut(attempt, TimeoutThenSuccess);
      }
      if !HasChannel(channel) {
        return NoSuchChannel;
      }
      accepted, deliveries := accepted[id := Receipt(id, channel)], deliveries + [id];
      if applies && failureMode.AcceptThenTimeout? && attempt == 1 {
        return TimedOut(attempt, AcceptThenTimeout);
      }
      return Delivered(Receipt(id, channel), attempt, false);
    }
  }
}
