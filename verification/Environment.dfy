/**
 * The simulated world (sim/environment.py): it resolves each risk item at most once, by a contact or
 * naturally, and refuses a second observation.  The random draws are given as functions.
 */
module Environment {
  import opened Contracts
  import opened Margin
  import opened WindowLoop
  import opened Wrappers

  datatype NaturalOutcome = NaturalOutcome(riskId: RiskId, customerId: CustomerId, recovered: bool,
                                           amountRecoveredPaise: int)

  predicate Resolved(naturals: seq<NaturalOutcome>, risk: RiskId) {
    exists i :: 0 <= i < |naturals| && naturals[i].riskId == risk
  }

  function ContactedRisks(contacts: seq<Contact>): set<RiskId> {
    if contacts == [] then {} else ContactedRisks(contacts[..|contacts| - 1]) + {contacts[|contacts| - 1].riskId}
  }

  function NaturalRisks(naturals: seq<NaturalOutcome>): set<RiskId> {
    if naturals == [] then {} else NaturalRisks(naturals[..|naturals| - 1]) + {naturals[|naturals| - 1].riskId}
  }

  lemma {:induction false} ContactedIsObserved(contacts: seq<Contact>, risk: RiskId)
    ensures risk in ContactedRisks(contacts) <==> Observed(contacts, risk)
  {
    if contacts != [] {
      var n := |contacts| - 1;
      ContactedIsObserved(contacts[..n], risk);
      assert contacts == contacts[..n] + [contacts[n]];
      ObservedOneMore(contacts[..n], contacts[n], risk);
    }
  }

  lemma {:induction false} NaturalIsResolved(naturals: seq<NaturalOutcome>, risk: RiskId)
    ensures risk in NaturalRisks(naturals) <==> Resolved(naturals, risk)
  {
    if naturals != [] {
      var n := |naturals| - 1;
      NaturalIsResolved(naturals[..n], risk);
      assert naturals == naturals[..n] + [naturals[n]];
      ResolvedOneMore(naturals[..n], naturals[n], risk);
    }
  }

  class Environment {
    const recovers: Oracle
    const recoversNaturally: (nat, RiskItem) -> bool
    var observedRiskIds: set<RiskId>
    var contacts: seq<Contact>
    var naturals: seq<NaturalOutcome>

    ghost predicate Valid()
      reads this
    {
      observedRiskIds == ContactedRisks(contacts) + NaturalRisks(naturals)
    }

    constructor (recovers: Oracle, recoversNaturally: (nat, RiskItem) -> bool)
      ensures Valid() && contacts == [] && naturals == [] && this.recovers == recovers
    {
      this.recovers, this.recoversNaturally := recovers, recoversNaturally;
      observedRiskIds, contacts, naturals := {}, [], [];
    }

    /** A contact; the incentive is spent only if the item is recovered. */
    method Observe(c: Candidate, grant: Grant, bps: int) returns (r: Result<Contact, RunError>)
      requires Valid()
      modifies this
      ensures Valid() && naturals == old(naturals)
      ensures r.Err? <==> old(Observed(contacts, c.request.riskId) || Resolved(naturals, c.request.riskId))
      ensures r.Err? ==> r.error == DuplicateObservation(c.request.riskId) && contacts == old(contacts)
      ensures r.Ok? ==>
                && r.value == WindowLoop.Observe(c, grant, bps, recovers(|old(contacts)|, c, bps))
                && contacts == old(contacts) + [r.value]
    {
      ContactedIsObserved(contacts, c.request.riskId);
      NaturalIsResolved(naturals, c.request.riskId);
      if c.request.riskId in observedRiskIds {
        return Err(DuplicateObservation(c.request.riskId));
      }
      observedRiskIds := observedRiskIds + {c.request.riskId};
      var recovered := recovers(|contacts|, c, bps);
      var amountRecovered := if recovered then c.item.amountPaise else 0;
      var incentive := if recovered then amountRecovered * bps / BPS else 0;
      var contact := Contact(c.request.agentId, c.request.customerId, c.request.riskId, grant.channel, bps,
                             grant.sendAfter, recovered, amountRecovered, incentive);
      contacts := contacts + [contact];
      assert contacts[..|contacts| - 1] == old(contacts);
      return Ok(contact);
    }

    /** Resolves a risk item that nobody contacted. */
    method ObserveNatural(item: RiskItem, customer: CustomerId) returns (r: Result<NaturalOutcome, RunError>)
      requires Valid()
      modifies this
      ensures Valid() && contacts == old(contacts)
      ensures r.Err? <==> old(Observed(contacts, item.riskId) || Resolved(naturals, item.riskId))
      ensures r.Err? ==> r.error == DuplicateObservation(item.riskId) && naturals == old(naturals)
      ensures r.Ok? ==>
                naturals == old(naturals) + [r.value] && r.value.riskId == item.riskId && r.value.customerId == customer
                        && r.value.amountRecoveredPaise == (if r.value.recovered then item.amountPaise as int else 0)
    {
      ContactedIsObserved(contacts, item.riskId);
      NaturalIsResolved(naturals, item.riskId);
      if item.riskId in observedRiskIds {
        return Err(DuplicateObservation(item.riskId));
      }
      observedRiskIds := observedRiskIds + {item.riskId};
      var recovered := recoversNaturally(|naturals|, item);
      var outcome := NaturalOutcome(item.riskId, customer, recovered, if recovered then item.amountPaise else 0);
      naturals := naturals + [outcome];
      assert naturals[..|naturals| - 1] == old(naturals);
      return Ok(outcome);
    }
  }

  lemma ObservedOneMore(contacts: seq<Contact>, contact: Contact, risk: RiskId)
    ensures Observed(contacts + [contact], risk) <==> Observed(contacts, risk) || contact.riskId == risk
  {
    var all := contacts + [contact];
    if Observed(contacts, risk) {
      var i :| 0 <= i < |contacts| && contacts[i].riskId == risk;
      assert all[i] == contacts[i];
    }
    assert all[|contacts|] == contact;
    if Observed(all, risk) {
      var i :| 0 <= i < |all| && all[i].riskId == risk;
      assert i < |contacts| ==> contacts[i].riskId == risk;
    }
  }

  lemma ResolvedOneMore(naturals: seq<NaturalOutcome>, outcome: NaturalOutcome, risk: RiskId)
    ensures Resolved(naturals + [outcome], risk) <==> Resolved(naturals, risk) || outcome.riskId == risk
  {
    var all := naturals + [outcome];
    if Resolved(naturals, risk) {
      var i :| 0 <= i < |naturals| && naturals[i].riskId == risk;
      assert all[i] == naturals[i];
    }
    assert all[|naturals|] == outcome;
    if Resolved(all, risk) {
      var i :| 0 <= i < |all| && all[i].riskId == risk;
      assert i < |naturals| ==> naturals[i].riskId == risk;
    }
  }
}
