# SAMPARK mediation core, modelled and verified in Dafny

SAMPARK lets several recovery agents ask for permission to contact a customer. Once per IST day a
mediation window filters the requests, ranks them, and issues at most one grant per customer against
two margin pools (the merchant's and the customer's own), rolling contact caps and a contact slot. A
grant is then executed and confirmed at what was spent, or rolled back. What loses is deferred to the
next window or denied for good.

This project models that core together with the components around it, and proves what the program's
documentation promises of it: over every reachable ledger, every whole run, every interleaving of
concurrent transactions and appenders, and every sequence of provider calls.

`dafny verify dfyconfig.toml` checks the whole project.

## How it is organized

| Part | Modules |
|---|---|
| Time, money, entities; counters as sizes | `Clock`, `Margin`, `Contracts`, `Sorting`, `Counting`, `Wrappers` |
| The in-memory ledger: specification, what it counts, allows and changes, invariants, the class that updates itself in place | `Ledger`, `LedgerMeaning`, `LedgerInvariants`, `Store` |
| The allocator: specification, properties, who outranks whom, who is granted on which terms, what everybody is told and why, the imperative algorithm | `Allocator`, `AllocatorProperties`, `Ranking`, `AllocatorSelection`, `WindowSelection`, `Offers`, `Reasons`, `GreedyAllocator` |
| The program as it ships, and a window whose highest priority loses | `Fatigue`, `Shipped`, `AbandonedRound` |
| Scope check, hard rules, what they object to, one mediated window | `Registry`, `HardFilter`, `PolicyMeaning`, `MediationService` |
| The day-by-day run, as a function and as the program's loops | `WindowLoop`, `Environment`, `ArmB` |
| What every run keeps | `Noninterference`, `WindowEffects`, `WindowGrants`, `MediatedLedger`, `MediationOutcomes`, `RunExecution`, `RunInvariant`, `RunSafety`, `RunAccounts`, `RunTimes` |
| The independent compliance checker, what its figures count, and that every run passes it | `Compliance`, `ComplianceCounts`, `RunCompliance` |
| The knapsack optimum, what a window's snapshot holds, the gap, a window the optimum gets wrong and one the allocator does | `Mckp`, `WindowGap`, `Snapshot`, `RoundedWindow`, `MissedOffer` |
| The audit log: canonical JSON and what it looks like, the hash chain, concurrent appends | `Json`, `Canonical`, `CanonicalForm`, `Chain`, `ChainAppend` |
| The relational ledger, its equivalence with the in-memory one, concurrent issuance | `SqlStore`, `PostgresIssuer`, `Simulation`, `ConcurrentIssuance`, `ConcurrencySafety`, `SlotRace`, `LockOrder` |
| The provider with retries and compensation | `Provider`, `DemoRunner` |
| The agent rate ceiling and strikes | `Enforcement`, `RateWindow` |
| The stratified holdout | `Holdout` |

State that the source updates in place is a class here (`InMemoryMediationLedger`, `Environment`,
`AuditLog`, `Connection`, `MockProvider`, `Runner`, `AgentRateWindow`, `AgentRepository`,
`Gatekeeper`); loops that the source has are loops here. Each such method is proved equal to a
specification function on values, and the theorems are about those functions. What the functions mean
is said without them: `LedgerMeaning`, `PolicyMeaning`, `Ranking`, `Offers`, `Reasons`, `RunTimes`,
`Snapshot`, `ComplianceCounts` and `CanonicalForm` state the verdicts, moves, counts, orders, terms,
reasons and times in the plain words of the records, as sizes of index sets, positions, or the first
of a list of objections that holds.

Identifiers of customers, risk items, agents and requests are integers, since only equality and order
matter. Instants are integer microseconds and IST is a fixed offset. Money is integer paise; scores
are reals. The recovery model, the fatigue cost and the channel cost are function parameters, and so
is whether a contact recovers its amount: a theorem about runs holds for every such world.

What the theorems about whole runs assume is `RunInvariant.ValidSetup`: at most one action per risk
item (the agents partition the items by source), request identifiers that do not collide, a merchant
budget that is not negative, agents whose scope stays below the whole price, and risk items filed
under their own identifier. `Noninterference.DecisionsIgnoreOutcomes` needs none of these.

## Where the code and its documentation part

- `sim/optimality_gap.py` states as an invariant that what was achieved is at most the optimum it
  computes. Weights are rounded up to the granularity, so at the default of 100 paise a feasible set of
  grants can be missed. `RoundedWindow.RoundingLosesAGrant` is a window of the program's own agents that shows it;
  `WindowGap.RoundedOptimumDominatesIff` says of any window exactly when the claim is safe, namely when
  the granted weights still fit after each is rounded up to whole units; at one paisa they always do
  (`WindowGap.WindowWithinOptimum`).
- The preview of a margin pool that does not exist yet is meant to equal the pool issuance then
  creates. Issuance takes the merchant's budget from a constant, the preview from its configuration;
  and issuance sums the customer's items over an optional scope, the preview over the ledger's own.
  `Simulation.PreviewMatchesCreation` is the exact condition;
  `Simulation.ConfiguredBudgetBreaksThePromise` and `Simulation.UnscopedIssuanceBreaksThePromise` are
  inputs on which either half fails.
- Confirming a grant in memory does not compare the spend with the reservation; the relational tables
  refuse a pool that goes over its budget. `LedgerInvariants.ConfirmKeepsSolventIff` and
  `Simulation.LifecyclesAgree` say exactly where the two part, `LedgerInvariants.OverspendingOverdraws`
  is such a settlement, and `Margin.SpendWithinReservation` says that a run never gets there.
- The pattern that restricts payload strings ends in `$`, which lets one final newline through
  (`Canonical.NewlineEscapesThePattern`). The canonical bytes stay unambiguous all the same.
- The allocator ranks by priority, yet the highest priority does not always get a slot that nobody
  refuses. The fatigue cost falls when a small item is opened (`Fatigue.SmallItemLowersTheCost`), so
  denying one can make a candidate that is then downgraded worthless. It is abandoned,
  and the next in rank wins: `AbandonedRound.RunGrantsTheSecond` is the first window of a run of the
  program's own agents in which that happens, with the frozen constants.
  `WindowSelection.HighestPriorityOfEveryCustomer` says exactly who is granted in any window, and
  `AllocatorSelection.NothingIsAbandoned` when the difference cannot arise.

## Model

| member | source | states |
|---|---|---|
| Clock.WindowOfStart | sampark/budget/windows.py:18-32 | A window's start belongs to that window, is 09:00 and is sendable |
| Clock.WindowsAreOrdered | sampark/budget/windows.py:18-20 | Later instants never fall in earlier windows |
| Clock.SendableBand | sampark/budget/windows.py:35-38 | The sendable hours of a day are exactly the twelve that start with its window |
| Clock.BoundaryIsNextWindowStart | sampark/budget/windows.py:41-51 | The quiet-hours boundary is defined exactly during quiet hours, and is the earliest window start not before the instant |
| Clock.TimesInUtc | sampark/budget/windows.py:18-51 | In microseconds since the epoch: a window is the twenty-four hours from 18:30 UTC, sendable for twelve hours from 03:30 UTC |
| Margin.DowngradeFits | sampark/budget/margin.py:35-46 | A downgrade fits both pools, is never negative, and leaves a request whole exactly when it fits |
| Margin.EffectiveBpsIsSound | sampark/allocator/greedy.py:237-246 | The rate recomputed after a downgrade never exceeds the requested one, reserves no more than the downgraded ceiling, and loses less than amount/10000 + 1 paise against it |
| Margin.SpendWithinReservation | sim/environment.py:315-318 | What is spent on a contact never exceeds what was reserved for it |
| Sorting.SortIsCanonical | sampark/allocator/greedy.py:176-177 | Sorting a sequence without ties gives one result for every input order |
| Sorting.SortIsStable | sampark/allocator/greedy.py:176-177 | Members that are tied keep the order they came in |
| Store.InMemoryMediationLedger.RollingContactCounts | sampark/budget/store.py:159-172 | The loop counts active contacts strictly after the two cutoffs |
| Store.InMemoryMediationLedger.ContactsMade | sampark/budget/store.py:174-188 | The loop counts the contacts sent, executing or confirmed, before an instant |
| Store.InMemoryMediationLedger.HasActiveClaim | sampark/budget/store.py:190-194 | The loop finds an active claim of the slot exactly if there is one |
| Store.InMemoryMediationLedger.OtherOpenAmounts | sampark/budget/store.py:196-215 | The loop lists the amounts of the customer's items that are open, neither denied nor resolved |
| Store.InMemoryMediationLedger.RemainingMarginPaise | sampark/budget/store.py:243-256 | The preview creates missing pools at their full budget and reads both |
| Store.InMemoryMediationLedger.UpdateGrantState | sampark/budget/store.py:258-275 | A grant and its claim move together; a release stamps the claim |
| Store.InMemoryMediationLedger.Book | sampark/budget/store.py:277-297 | A release or settlement changes both pools of the grant's window by the same amounts and nothing else |
| Store.InMemoryMediationLedger.Transition | sampark/mediation/lifecycle.py:56-110 | A lifecycle call moves the ledger as specified, and on an error leaves it as it was |
| Store.InMemoryMediationLedger.IssueGrant | sampark/budget/store.py:305-416 | The eight steps of issuance end in the specified answer and the specified ledger |
| LedgerInvariants.EveryReachableLedgerIsConserved | sampark/budget/store.py:226-297 | After any sequence of issues, lifecycle calls, previews and denials: every claim follows its grant, one active claim per slot, reserved is the sum of open reservations and spent the sum of settlements, in both pools of every window |
| LedgerInvariants.EveryReachableLedgerIsSolvent | sampark/budget/store.py:334-409 | No pool is ever overdrawn if settlements stay within their reservations |
| LedgerInvariants.ConfirmKeepsSolventIff | sampark/budget/store.py:287-297 | A settlement keeps the ledger solvent exactly when its excess over the reservation fits what remains in both pools |
| LedgerInvariants.FirstSpend | sampark/budget/store.py:277-297 | After the first grant of all is executed and confirmed, both pools are left with their budgets less the spend, whatever was reserved |
| LedgerInvariants.OverspendingOverdraws | sampark/budget/store.py:287-297 | A grant of 100 paise confirmed at 101, by calls the ledger accepts, overdraws both its pools |
| LedgerInvariants.IssueChangesRemaining | sampark/budget/store.py:334-409 | A new grant takes its ceiling, which fits, from its own two pools; nothing else changes any pool |
| LedgerInvariants.TransitionChangesRemaining | sampark/budget/store.py:277-297 | A release frees the whole ceiling, a settlement the ceiling less the spend, in the grant's own two pools only |
| LedgerInvariants.RepeatIsNoOp | sampark/mediation/lifecycle.py:64-110 | Repeating a lifecycle step, with whatever instant or spend, changes nothing |
| LedgerInvariants.TerminalStatesAbsorb | sampark/mediation/lifecycle.py:32-61 | Grants are never lost or altered; they only make legal moves, and none out of a terminal state |
| LedgerInvariants.ReleaseFreesTheSlot | sampark/budget/store.py:258-285 | Rolling back or expiring frees the slot and returns the ceiling to both pools |
| LedgerMeaning.LivesMean | sampark/mediation/lifecycle.py:32-61 | The legal moves are these five; a grant holds its reservation as long as it can still move, and counts until it is rolled back or expires |
| LedgerMeaning.TransitionMeans | sampark/mediation/lifecycle.py:56-110 | A lifecycle call in full: a repeat changes nothing, a move that is not among the five is an error, any other moves grant and claim; executing touches no pool, confirming turns the reservation into what was spent, the rest return it, in the grant's own two pools |
| LedgerMeaning.PoolsAre | sampark/budget/store.py:226-241 | A pool starts with the whole merchant budget, or a twentieth of all that is at risk with the customer, rounded down |
| LedgerMeaning.RollingCountsAre | sampark/budget/store.py:159-172 | The rolling counts are the numbers of the customer's reserved, executing and confirmed grants sent strictly within 24 hours and seven days |
| LedgerMeaning.ContactsMadeAre | sampark/budget/store.py:174-188 | The contacts made are the customer's executing and confirmed grants sent strictly before |
| LedgerMeaning.OtherOpenAmountsAre | sampark/budget/store.py:196-215 | The open amounts are, in order, those of the customer's other items detected by then, not denied, and of which no confirmed grant was about |
| LedgerMeaning.RefusalMeans | sampark/budget/store.py:334-368 | Issuance refuses for the first that holds of: merchant's pool spent, customer's pool spent, one contact within a day, two within seven, slot held; and for nothing else |
| LedgerMeaning.IssueMeans | sampark/budget/store.py:305-416 | Issuance in full: a known request is answered with its grant; a refusal lasts to the next day's 09:00 and only puts request and pools on record; a new grant is reserved for two hours from sending, at the least of what the rate asks for and what both pools have left, with a claim and both reservations |
| GreedyAllocator.GroupByCustomer | sampark/allocator/greedy.py:163-165 | Candidates are grouped by customer in their input order |
| GreedyAllocator.AdmitAll | sampark/allocator/greedy.py:179-213 | The admission loop scores, denies what is not worth sending, and keeps the rest, as specified |
| GreedyAllocator.Attempt | sampark/allocator/greedy.py:226-276 | One attempt previews, downgrades, re-scores, abandons or issues, as specified, whatever was denied before |
| GreedyAllocator.ContestSlot | sampark/allocator/greedy.py:220-276 | The contest tries candidates in rank order until one wins |
| GreedyAllocator.SettleLosers | sampark/allocator/greedy.py:293-308 | The loop over the losers gives every candidate but the winner, in rank order, the outcome `Reasons.LoserIsTold` spells out, and marks the ledger as it goes |
| GreedyAllocator.AllocateWindow | sampark/allocator/greedy.py:92-310 | The whole algorithm, on the ledger it updates, computes the outcomes and ledger of which `WindowSelection.GrantedIsAhead`, `SomebodyIsGranted` and `Reasons.MediationIsReasoned` say who is granted, who waits and who is denied |
| AllocatorProperties.EachCandidateOneOutcome | sampark/allocator/greedy.py:163-310 | Every candidate gets exactly one outcome |
| AllocatorProperties.OneGrantPerCustomer | sampark/allocator/greedy.py:226-291 | A customer is granted at most once in a window |
| AllocatorProperties.PresentationOrderIsIrrelevant | sampark/allocator/greedy.py:163-218 | The order candidates arrive in changes neither an outcome nor the ledger |
| AllocatorSelection.AttemptFollowsRefusal | sampark/allocator/greedy.py:267-276 | Whether an attempt wins depends only on the customer and window, not on the candidate |
| AllocatorSelection.FirstViableWins | sampark/allocator/greedy.py:226-276 | The contest exactly: unless the slot is refused the first of the ranking whose offer is not abandoned wins, those before are told which pool was short, and a refusal is told to everyone alike |
| AllocatorSelection.TopOrNobody | sampark/allocator/greedy.py:226-276 | The first of the ranking wins exactly if the slot is not refused and its offer is not abandoned; nobody wins exactly if the slot is refused or every offer is abandoned |
| AllocatorSelection.HighestPriorityOrNobody | sampark/allocator/greedy.py:163-276 | From admission on, for any scorer and in either mode: the highest priority wins exactly if issuance does not refuse the slot and its downgraded offer is still worth something; otherwise whoever outranks, as `Ranking.Outranks` spells it out, all of whom that is true, or nobody |
| AllocatorSelection.NothingIsAbandoned | sampark/allocator/greedy.py:241-265 | No offer is abandoned if a higher incentive never raises a score and either open items never do or the round denied none |
| Ranking.RanksAsPromised | sampark/allocator/scoring.py:76-83 | The order sorted by, in both modes, spelled out: expected net plus the bonus for every window waited, then the larger amount, the earlier detection, the smaller identifiers; in arrival order only the last three |
| Offers.ScoreMeans | sampark/allocator/scoring.py:41-73 | The score plus channel and fatigue cost is what the item is expected to bring, less the share given away |
| Offers.FatigueMeans | sampark/policy/soft/fatigue.py:33-49 | The fatigue cost times the horizon is the chance of the contact times what decay loses times the value at stake |
| Offers.OfferMeans | sampark/allocator/greedy.py:226-246 | What was asked for, at its admission score, exactly if both pools cover it; otherwise the largest rate they cover, scored anew |
| Offers.AttemptMeans | sampark/allocator/greedy.py:226-276 | An attempt in full: after a winner nothing happens; a downgraded offer worth nothing is abandoned to the next day and blamed on the smaller pool; any other is put to issuance, whose answer makes a winner or is noted |
| Reasons.AdmittedIfWorthIt | sampark/allocator/greedy.py:179-213 | Admission exactly: outside arrival order a score that is not positive is a denial on the spot, for this and every later score; anybody else is admitted with that score |
| Reasons.WaitingIsReasoned | sampark/allocator/outcomes.py:56-101 | Short of the seventh window a candidate that has to wait is deferred, aged once, to the instant it was given, and nothing is denied; at the seventh it is denied for good |
| Reasons.LoserIsTold | sampark/allocator/greedy.py:293-308 | A loser is told what its own attempt met with, or that another was ranked higher, with its admission score; deferred exactly if fewer than seven windows are used up |
| WindowSelection.HighestPriorityOfEveryCustomer | sampark/allocator/greedy.py:163-310 | In a window's outcomes, for every customer, any scorer and either mode: the highest priority is granted exactly if on the ledger the earlier customers leave issuance does not refuse the slot and its downgraded offer is still worth something; nobody is exactly if the slot is refused or no offer is; whoever is outranks, as `Ranking.Outranks` spells it out, all whose offer is |
| WindowSelection.GrantedIfWon | sampark/allocator/greedy.py:278-291 | A candidate is granted in the window exactly if it won its customer's contest |
| WindowSelection.GrantedIsAhead | sampark/allocator/greedy.py:163-291 | In a window's outcomes whoever is granted outranks, in the spelled-out order, every admitted candidate of the same customer whose offer is worth something |
| WindowSelection.SomebodyIsGranted | sampark/allocator/greedy.py:163-291 | A customer is granted somebody exactly if issuance does not refuse the slot and some admitted offer is worth something |
| AllocatorSelection.HeuristicLowerRateNeverHurts | sampark/allocator/scoring.py:41-73 | Offering a smaller incentive never lowers the score, since no other term depends on it |
| AllocatorSelection.HeuristicFewerOpenNeverHurts | sampark/allocator/scoring.py:41-73 | The score never prefers more open items exactly if the fatigue cost never falls when an item is opened |
| Fatigue.OneMoreOpenItem | sampark/policy/soft/fatigue.py:33-49 | Another open item does not lower the fatigue cost exactly from a certain amount on, given in terms of what was open before |
| Fatigue.SmallItemLowersTheCost | sampark/policy/soft/fatigue.py:33-49 | With the frozen constants an open item of 100 rupees makes a first contact cheaper |
| AbandonedRound.HighestPriorityLoses | sampark/allocator/greedy.py:226-276 | With the frozen constants: a slot nobody refuses, whose first-ranked candidate is abandoned and whose second wins |
| AbandonedRound.PresentedAreAdmissible | sampark/mediation/hard_filter.py:85-90 | No hard rule objects to any candidate of that round |
| AbandonedRound.WindowGrantsTheSecond | sampark/mediation/hard_filter.py:124-155 | The whole mediated window on that input, hard rules first, grants the second candidate and not the first |
| AbandonedRound.RunGrantsTheSecond | sampark/mediation/service.py:170-217 | The same of the first window of a run: the candidates are those the program's agents ask for, past the scope check |
| AbandonedRound.ShippedScorerPrefersMoreOpen | sampark/allocator/scoring.py:41-73 | The program's own score can prefer more open items |
| Shipped.ShippedTermsExist | sampark/allocator/calibrated.py:20-62 | Supporting: there are terms with the frozen priors, channel costs and fatigue cost |
| Shipped.TakenInOnTheDay | sampark/mediation/service.py:170-189 | What the cart and payment agents ask for about their customers' items passes the scope check and becomes that day's candidates, in the order the run sorts them |
| Shipped.RunsExist | sim/arm_b.py:115-145 | Supporting: there is a run of the registered agents over any items |
| MediationService.EvaluateAll | sampark/mediation/hard_filter.py:85-90 | The hard rules run in order and stop at the first verdict |
| MediationService.FilterCandidates | sampark/mediation/hard_filter.py:69-121 | Filtering customer by customer, updating the ledger's denials, gives the specified survivors and outcomes |
| MediationService.FilterAndAllocate | sampark/mediation/hard_filter.py:124-155 | Hard rules, then allocation, on one ledger |
| MediationService.TakeIn | sampark/mediation/service.py:170-189 | Scope denials and candidates are separated in arrival order, stopping at the first invalid candidate |
| MediationService.Conclude | sampark/mediation/service.py:198-217 | Decisions and rescheduled candidates in outcome order |
| MediationOutcomes.MediationAccounts | sampark/mediation/hard_filter.py:124-155 | Every candidate mediated gets exactly one outcome, and a granted one passed the hard rules |
| MediationOutcomes.AdmissibleIsContactable | sampark/mediation/hard_filter.py:85-121 | An admitted candidate is outside quiet hours, and carries no incentive for a customer with an open dispute |
| MediationOutcomes.AllocationAlone | sampark/mediation/hard_filter.py:124-155 | Where no hard rule objects to anybody, mediating a window is allocating it |
| PolicyMeaning.ScopeMeans | sampark/registry/scope.py:48-99 | A request is refused for the first of nine checks it fails, each said of agent and item on record, and verified if it fails none |
| PolicyMeaning.VerdictMeans | sampark/mediation/hard_filter.py:85-121 | A candidate is denied for the first permanent objection, with none deferred for the first passing one, to the next window's 09:00 or, at night, to the next 09:00; admitted if nothing objects |
| PolicyMeaning.AgentsHaveTemplates | sampark/policy/hard/dlt_template.py:20-32 | Every registered agent has a template on file for its one channel; only carts and mandates may give anything away, at most five and two percent |
| Reasons.FilteredAsJudged | sampark/mediation/hard_filter.py:85-121 | Each candidate survives untouched, is denied with the rule's reason for itself and every later score, or waits with it, as the rules judge on the ledger of that moment |
| Reasons.MediationIsReasoned | sampark/mediation/hard_filter.py:124-155 | Every outcome of a window has its reason: only a permanent rule, a score that is not positive or a seventh window denies, everything else defers by one window; the ledger denies exactly the items the outcomes deny |
| Reasons.EveryDecisionIsReasoned | sim/arm_b.py:300-431 | The same of every decision of every run |
| WindowEffects.DeferralIsShaped | sampark/allocator/outcomes.py:56-101 | With fewer than six deferrals behind it a candidate is deferred with that reason, aged once and moved to the next day's 09:00; with six it is denied as exhausted |
| WindowEffects.VerdictDefersToNextDay | sampark/mediation/hard_filter.py:85-121 | A rule defers only to the next window's start |
| WindowEffects.MediationShapes | sampark/mediation/service.py:191-217 | Everything a window decides stays in that window or is carried to the next; its grants are in that window |
| WindowGrants.OfferIsFair | sampark/allocator/greedy.py:234-267 | The rate offered is at most the requested one, and the issuer reserves exactly its ceiling |
| WindowGrants.MediationTallies | sampark/allocator/greedy.py:267-291 | A window appends to the ledger exactly the grants its outcomes report, each issued below both rolling caps |
| MediatedLedger.MediationKeepsHealthy | sampark/mediation/service.py:191-197 | Mediating a window keeps the ledger coherent, conserved and solvent |
| Noninterference.IssueAgrees | sampark/budget/store.py:305-416 | Issuance from a window on does not depend on what earlier windows' pools hold |
| Noninterference.TransitionAgrees | sampark/budget/store.py:287-297 | Confirming with different spends is invisible to all later windows |
| Noninterference.WindowAgrees | sim/arm_b.py:375-430 | One window of two runs that differ only in past outcomes decides the same and leaves them that way |
| Noninterference.DecisionsIgnoreOutcomes | sim/sensitivity.py:30-51 | Two whole runs over the same actions in worlds that respond differently make the same decisions, grants, deferrals and contacts, or fail alike |
| Environment.Environment.Observe | sim/environment.py:288-348 | A contact is observed once; a second observation of a risk item, or one after a natural outcome, is an error that changes nothing |
| Environment.Environment.ObserveNatural | sim/environment.py:350-392 | A natural outcome is resolved once and never for an observed item |
| ArmB.ExecuteGrants | sim/arm_b.py:396-426 | Execution, observation and confirmation of a window's grants, in order, on the ledger and the environment |
| ArmB.RunWindow | sim/arm_b.py:375-430 | One day of the loop computes the specified run |
| ArmB.RunWindowLoop | sim/arm_b.py:300-431 | The whole loop, from the first arrival to eight days past the last, computes the run of which `RunTimes.EveryContactIsDue` and `RunAccounts.EveryActionIsAccountedFor` say what was contacted when and what became of the rest |
| ArmB.NaturalOutcomesForUncontacted | sim/arm_b.py:692-721 | After the run exactly the items that were not contacted are resolved naturally, each once and without an error |
| RunAccounts.ContactedAboutOwnItem | sim/arm_b.py:300-431 | Every contact of a run is about an item on record, of the customer contacted, that one of the actions was for |
| ArmB.RunArmBHoldout | sim/arm_b.py:736-787 | The run with a holdout and what follows it: contacted and natural outcomes partition the items, one outcome each, and nobody held out is contacted |
| ArmB.NotHeldOutCounts | sim/arm_b.py:736-787 | What is mediated is every action of everybody not held out, as often as it was asked for |
| RunExecution.ExecuteThenConfirm | sim/arm_b.py:410-415 | A reserved grant can be executed and confirmed within its reservation, and the ledger stays healthy |
| RunExecution.ExecuteAll | sim/arm_b.py:396-426 | Executing a window's grants never fails, contacts exactly the granted, and confirms every grant |
| RunInvariant.IntakeSucceeds | sim/arm_b.py:376-381 | Every verified request of the day becomes a candidate of that day; none is rejected |
| RunSafety.WindowKeepsInvariant | sim/arm_b.py:375-430 | A window never fails and keeps the run's invariant: healthy ledger, one confirmed grant per contact, caps, spacing, and a carry-over of distinct actions presented in the window they were moved to |
| RunSafety.RunsEndInInvariant | sim/arm_b.py:300-431 | No run fails, and every run ends in that invariant |
| RunAccounts.EveryActionIsAccountedFor | sim/arm_b.py:374-452 | When the loop ends nothing is carried over; each verified action had one decision a day, at most six deferrals, then exactly one grant or denial, and was contacted exactly if granted; each unverified one had one scope denial |
| RunTimes.ArrivalIsDue | sim/arm_b.py:266-270 | An action arrives when it is scheduled, from 09:00 on; an earlier one at 09:00 of its day, the first window start not before it |
| RunTimes.TakenInByDay | sim/arm_b.py:354-356 | A day takes in exactly the actions scheduled on it, as often as asked for, agent by agent and by risk item |
| RunTimes.RunSpan | sim/arm_b.py:434-452 | A run goes from the first day something is scheduled on to eight days after the last |
| RunTimes.CandidateMeans | sampark/allocator/candidate.py:36-84 | A candidate carries its request's ceiling rounded down, the date it is sent on and no deferrals; the two errors exactly |
| RunTimes.EveryContactIsDue | sim/arm_b.py:300-431 | Every contact of every run is its action's, on the action's terms, brings the recorded amount with the rate's incentive or nothing, and is made when due: never before the scheduled time, at it or that day's 09:00 without a deferral, at 09:00 of the n-th day after with n deferrals in the history |
| RunTimes.ExhaustedAfterSixDeferrals | sampark/allocator/outcomes.py:78-101 | In a run a denial for want of windows comes after exactly six deferrals, and any earlier one for a permanent rule or a worthless score |
| Compliance.CountBreaches | sim/mediation_metrics.py:82-92 | The growing history counts the contacts that break either cap, and finds customers with three in a day |
| Compliance.CountConflicts | sim/mediation_metrics.py:94-97 | Contacts beyond the first in each window |
| Compliance.GroupTimes | sim/mediation_metrics.py:69-71 | Contacts grouped by customer, customers in order of first appearance |
| Compliance.ComputeComplianceMetrics | sim/mediation_metrics.py:66-126 | The checker's loops compute the report whose figures `ComplianceCounts.ReportMeans` spells out |
| RunCompliance.NoDailyBreach | sim/mediation_metrics.py:84-87 | The checker reports no 24-hour breach exactly when any two contacts are a day apart |
| RunCompliance.NoWeeklyBreach | sim/mediation_metrics.py:85-89 | It reports no weekly breach exactly when no three contacts fall within seven days |
| RunCompliance.NoConflict | sim/mediation_metrics.py:94-97 | It reports no conflict exactly when no two contacts share a window |
| RunCompliance.CrowdedIsBreach | sim/mediation_metrics.py:84-91 | Three contacts within a day always include a 24-hour breach |
| RunCompliance.EveryRunIsCompliant | sim/mediation_metrics.py:66-126 | For every run the independent checker reports zeros in all six figures, whose meaning `ComplianceCounts.ReportMeans` gives; although the guard counts at decision time and the checker at sending time |
| RunCompliance.EveryRunKeepsTheRules | sim/arm_b.py:300-431 | The same of the contacts themselves: each within the twelve hours from 09:00, over a channel not opted out of, without incentive where something is disputed; two of a customer a day apart, the first and last of three seven days |
| ComplianceCounts.QuietCountIs | sim/mediation_metrics.py:73 | The quiet-hours figure is the number of contacts outside the twelve hours from 09:00 of their own day |
| ComplianceCounts.DisputeCountIs | sim/mediation_metrics.py:99-105 | The dispute figure is the number of contacts with an incentive to a customer with a disputed item |
| ComplianceCounts.BreachesAre | sim/mediation_metrics.py:82-89 | A cap's figure is the number of contacts with at least the cap's number of earlier ones less than the span before |
| ComplianceCounts.CrowdedIs | sim/mediation_metrics.py:90-91 | Crowded means some contact has two earlier ones less than a day before |
| ComplianceCounts.ConflictsAre | sim/mediation_metrics.py:94-97 | Conflicts are how many more contacts there are than windows they are in |
| ComplianceCounts.TimesAre | sim/mediation_metrics.py:69-80 | What is counted per customer are their contact times, ascending, each as often as it occurs |
| ComplianceCounts.ReportMeans | sim/mediation_metrics.py:66-126 | The whole report as these numbers, summed over the customers contacted, each once |
| Mckp.OfferGroup | sim/optimality_gap.py:172-182 | One group's pass over the table: each capacity's best with at most one more item from the group |
| Mckp.SolveMckp | sim/optimality_gap.py:158-184 | The dynamic program returns exactly the greatest value of any choice of at most one item per group that fits the rounded capacity |
| Mckp.BestIsOptimum | sim/optimality_gap.py:158-184 | The recurrence is reached by some choice and bounds all of them |
| Mckp.TableMaximumIsLastEntry | sim/optimality_gap.py:184 | The maximum over the table is its last entry |
| Mckp.CountedChoicesFit | sim/optimality_gap.py:161-177 | Whatever the program counts as fitting really fits in paise |
| Mckp.SlackChoicesAreCounted | sim/optimality_gap.py:169-182 | A choice of k items with k(g - 1) paise to spare is never missed |
| Mckp.ExactAtOnePaisa | sim/optimality_gap.py:158-184 | At a granularity of one paisa the result is the true optimum |
| WindowGap.CollectSnapshot | sim/optimality_gap.py:116-155 | The observer's loops compute the groups and the sum that `Snapshot.SnapshotIsFaithful` and `Snapshot.AchievedIsTheSum` say are the window as it was, losers included |
| WindowGap.ComputeWindowGap | sim/optimality_gap.py:198-232 | The two numbers compared: what was achieved, and the greatest value of any choice of at most one recorded item per customer within the rounded capacity |
| Snapshot.SnapshotIsFaithful | sim/optimality_gap.py:115-155 | There is one group for each customer with an outcome scored above zero, and it lists exactly those outcomes in order, granted or not: score, and the ceiling of the rate granted or else of the request |
| Snapshot.AchievedIsTheSum | sim/optimality_gap.py:99-101 | What was achieved is the sum of the scores of the granted outcomes scored above zero |
| MissedOffer.AllocatorMissesThePayment | sim/optimality_gap.py:198-232 | With the program's own agents and constants, a first window in which a cart takes the whole merchant pool and a payment is refused: the optimum is more than four times what was achieved |
| WindowGap.AchievedWithinOptimum | sim/optimality_gap.py:39-48 | The granted items are one of the program's own choices, so if they fit once rounded up to whole units they never beat the optimum |
| WindowGap.WindowWithinOptimum | sim/optimality_gap.py:39-48 | In every window of every run, in either mode, the achieved value is at most the optimum: at one paisa always, at a coarser granularity whenever the rounded grants fit |
| WindowGap.RoundedOptimumDominatesIff | sim/optimality_gap.py:50-60 | For any recorded window, losers included: the optimum is at least the achieved value whatever the candidates are worth, exactly when the rounded grants fit |
| RoundedWindow.RoundingLosesAGrant | sim/optimality_gap.py:198-232 | The first window of a run of the program's agents over two carts: both are granted in full and fill the pool to the paisa, and at granularity 100 the program's optimum is at most half of what they achieve |
| Json.ReadInvertsPrint | sampark/audit/canonical.py:133-144 | A parser recovers every value from its printed form, whatever follows it (sections 4 to 7 of RFC 8259) |
| Canonical.CanonDecidesSame | sampark/audit/canonical.py:133-144 | Sorting keys gives equal values exactly to mappings with equal entries, at every depth |
| Canonical.ReadInvertsDumps | sampark/audit/canonical.py:133-144 | The parser recovers the sorted value from the canonical text |
| Canonical.DumpsIsUnambiguous | sampark/audit/canonical.py:133-144 | Two values have the same canonical text exactly when they say the same, whatever order their keys were inserted in |
| Canonical.SafeIsPrintable | sampark/audit/canonical.py:71-108 | Whatever passes validation can be printed |
| Canonical.NewlineEscapesThePattern | sampark/audit/canonical.py:39 | The pattern allows exactly one newline, and only at the end |
| Canonical.BytesIdentifyEvents | sampark/audit/canonical.py:111-144 | Two valid events have the same canonical bytes exactly when they agree in every field and say the same in their payloads |
| CanonicalForm.DumpsIsCanonical | sampark/audit/canonical.py:132-145 | The text is printable ASCII with keys ascending at every depth, by the first character that differs, and reads back as that value |
| CanonicalForm.TextIsCompact | sampark/audit/canonical.py:144 | The only spaces in a text are those of its strings |
| CanonicalForm.SafeMeans | sampark/audit/canonical.py:71-99 | A payload value passes exactly if it holds nothing but what JSON prints without floats, and only identifiers for strings and keys |
| CanonicalForm.BytesMean | sampark/audit/canonical.py:132-145 | Bytes exist exactly for a payload of version one that passes; which error otherwise |
| CanonicalForm.EventBytes | sampark/audit/canonical.py:113-145 | An event is hashed from its seven fields in this fixed order, in canonical form |
| Chain.CanonicalHashIsSound | sampark/audit/canonical.py:147-150 | With a collision-free hash that never yields the genesis value, equal event hashes mean equal events |
| Chain.VerifyChain | sampark/audit/chain.py:365-402 | The loop reports the count, the genesis check, whether every link holds, the first broken link and the head hash |
| Chain.HeadHashPinsTheLog | sampark/audit/chain.py:365-402 | Two verified logs with the same head hash are equal event for event, and in length |
| Chain.EditIsFoundNext | sampark/audit/chain.py:380-392 | Editing an event that is not the last, keeping its link, makes the next index the first divergence, exactly when the edit changes something |
| Chain.LastEditShowsInHeadHash | sampark/audit/chain.py:365-402 | Editing the last event passes verification and changes the head hash |
| Chain.TruncationShowsInHeadHash | sampark/audit/chain.py:365-402 | Cutting the log short passes verification and changes the head hash |
| ChainAppend.AuditLog.Append | sampark/audit/chain.py:159-234 | An append links the event to the head and never forks; a repeated event identifier returns the stored event; an event that cannot be hashed, or that is already linked, is refused; errors change nothing |
| ChainAppend.GoodChainHasNoForks | sampark/audit/chain.py:204-213 | In a linked log no previous hash and no event identifier occurs twice |
| ChainAppend.StepKeepsInv | sampark/audit/chain.py:193-234 | Every step of an appender keeps the log linked and only ever extends it |
| ChainAppend.EveryInterleavingKeepsTheChain | sampark/audit/chain.py:159-234 | Under every interleaving of lock, probe, read, insert and commit steps of any number of appenders, the log is rooted and linked, nothing repeats, and the fork error never fires |
| ChainAppend.LogOnlyGrows | sampark/audit/chain.py:159-234 | What is in the log stays in it, in place |
| ChainAppend.RepeatedAppendAddsNothing | sampark/audit/chain.py:197-199 | Appending a known event identifier releases the lock and leaves the log as it was |
| PostgresIssuer.Connection.AttemptOnce | sampark/budget/issuance.py:93-284 | The transaction's statements leave the specified answer and rows; a denial leaves no row behind |
| PostgresIssuer.Connection.LockPools | sampark/budget/issuance.py:133-200 | Missing pool rows are inserted with their budgets, existing ones kept, and both read |
| PostgresIssuer.Connection.InsertClaim | sampark/budget/issuance.py:246-258 | The partial unique index refuses exactly a slot that is taken |
| PostgresIssuer.Connection.Transition | sampark/budget/postgres_ledger.py:299-373 | The lifecycle calls row by row, including what an error part-way leaves |
| PostgresIssuer.RowsChangeNothing | sampark/budget/issuance.py:133-211 | Creating pool rows early changes neither the decision nor what is then written |
| Simulation.IssuersAgree | sampark/budget/issuance.py:105-284 | From related states both issuers give the same grant, or the same reason and next eligible time, and reach related states |
| Simulation.LifecyclesAgree | sampark/budget/postgres_ledger.py:299-373 | Lifecycle calls fail and succeed alike on both sides, except that the tables refuse exactly a settlement that overdraws a pool |
| Simulation.LedgersAgree | sampark/budget/issuance.py:93-284 | From an empty ledger and a fresh or seeded database, over any sequence of issues, lifecycle calls, previews and denials: the same answer to every call, and related states |
| Simulation.ConservedWithinBudget | sampark/budget/postgres_ledger.py:299-373 | A conserved, solvent ledger meets the tables' constraints |
| Simulation.PreviewMatchesCreation | sampark/budget/postgres_ledger.py:203-254 | The preview of a pool equals what issuance creates exactly if each row exists, or the merchant's configured budget is the constant issuance uses and the customer's items come to the same budget in the ledger's scope and in issuance's |
| Simulation.UnscopedIssuanceKeepsThePromise | sampark/budget/issuance.py:153-183 | Issuing without a scope keeps it if the customer owns nothing outside the ledger's |
| Simulation.UnscopedIssuanceBreaksThePromise | sampark/budget/issuance.py:153-183 | An input: an item of another run, in the issued pool and not in the preview |
| Simulation.ConfiguredBudgetBreaksThePromise | sampark/budget/postgres_ledger.py:203-254 | Supporting: an input on which the merchant's configured budget is previewed and the constant issued |
| Simulation.UnscopedSumIff | sampark/budget/issuance.py:153-183 | Summing a customer's whole table equals summing the run's own items exactly if the customer has no others |
| Simulation.SendingDateFindsThePool | sampark/budget/postgres_ledger.py:293-365 | Supporting: a release finds the customer's reserved pool exactly if the grant is sent on its window's date |
| Simulation.CandidatesKeepTheirDate | sampark/allocator/candidate.py:36-84 | Supporting: construction and every deferral keep a candidate's window the date it is sent on; construction fails exactly for mismatched items and whole-price incentives |
| ConcurrencySafety.SqlIsLawful | sampark/budget/issuance.py:93-284 | The issuance transaction meets what the concurrency proof needs of it: it adds one grant and one claim or nothing, is idempotent, and writes alike from ledgers that agree on what it reads |
| ConcurrencySafety.SnapshotStillHolds | sampark/budget/issuance.py:93-284 | If nothing that conflicts was committed since the snapshot, the transaction still sees what it needs |
| ConcurrencySafety.CommitLinearizes | sampark/budget/issuance.py:287-320 | A transaction that commits has the answer and the writes it would have had alone at that moment |
| ConcurrencySafety.EveryInterleavingIsSequential | sampark/budget/issuance.py:287-320 | Under every interleaving of begin, lock, write, commit and retry steps the database is the committed transactions run one after another, with one active claim per slot and one grant per request |
| ConcurrencySafety.OnlyWinnersLeaveATrace | sampark/budget/issuance.py:287-320 | Only an issued grant is committed, once; a denied or exhausted request leaves nothing visible |
| ConcurrencySafety.GivenUpAfterFive | sampark/budget/issuance.py:312-320 | A call is given up after exactly five serialization failures, told its slot is taken until the next day, and never sooner |
| SlotRace.OneWinnerPerSlot | sampark/budget/issuance.py:246-258 | In any race, whoever takes part, no two committed calls have the same slot |
| SlotRace.ExactlyOneWinner | sampark/budget/issuance.py:93-284 | Racing for a slot beside other traffic that leaves the racers funded: once any racer has finished other than by running out of retries, exactly one has committed, it has the grant, and the others are denied |
| SlotRace.MarginTaken | sampark/budget/issuance.py:133-200 | After any calls in any order the merchant's pool has lost no more than the calls granted since asked for, each once |
| SlotRace.UnrelatedTrafficIsHarmless | sampark/budget/issuance.py:93-284 | Any calls of other customers leave a racer below its caps and funded: those of other windows whatever they ask for, those of the same window if what they ask for together leaves something in the merchant's pool |
| SlotRace.SqlRaceHasOneWinner | sampark/budget/issuance.py:93-320 | Exactly one winner for the issuance transaction itself, beside such traffic, with the committed database safe and sequential |
| ConcurrencySafety.WriteFindsSlotFree | sampark/budget/issuance.py:246-258 | Under its locks a transaction that may write finds the slot free, so the index is never what stops it |
| ConcurrencySafety.NoDeadlock | sampark/budget/issuance.py:133-196 | Merchant before customer: while anyone is unfinished, someone can move on |
| LockOrder.NeverAllWait | sampark/budget/issuance.py:119-278 | Over all four rows a transaction waits for, request, merchant, customer and contact state: under every interleaving, while anyone is unfinished, someone unfinished is not waiting |
| Provider.MockProvider.Send | sampark/demo/provider.py:161-195 | One attempt, idempotency first, as specified; a delivery means exactly one contact so far |
| Provider.MockProvider.Arm | sampark/demo/provider.py:137-139 | Arming sets the failure and its target and nothing else |
| Provider.NoDoubleSend | sampark/demo/provider.py:161-195 | After any sequence of arm, disarm and send calls each grant was contacted once if accepted and never otherwise |
| Provider.RetryIsDeduplicated | sampark/demo/provider.py:172-191 | A retry after an unanswered acceptance returns the stored receipt and contacts nobody |
| DemoRunner.SendsAreSafe | sampark/demo/runner.py:431-438 | The retries contact this grant at most once and no other grant |
| DemoRunner.RetriesEnd | sampark/demo/runner.py:431-438 | The retries are exhausted exactly when the provider is down for the grant and never accepted it; they end in a delivery exactly when it has |
| DemoRunner.EachFailureEnds | sampark/demo/provider.py:161-195 | What two attempts come to under each failure: delivered at once, on the second attempt, on the second from the stored receipt, or not at all |
| DemoRunner.OutageMeans | sampark/demo/runner.py:416-429 | What is armed before a send: what an operator asked for, the scripted outage of the second window unless one is armed or was rolled back, or nothing new |
| DemoRunner.EveryDemoRunIsHonest | sampark/demo/runner.py:397-471 | Whatever is issued, executed, expired, forced and armed: confirmed grants were delivered exactly once, rolled back and expired ones never |
| DemoRunner.OutcomesAreTruthful | sampark/demo/runner.py:440-471 | What an execution reports is what happened, and an armed failure does not outlive the grant it hit |
| DemoRunner.RollbackReturnsEverything | sampark/demo/runner.py:440-453 | After issue, execution and rollback every other request meets the same pools, caps and slots as if the grant had never been issued |
| DemoRunner.RolledBackRequestStaysSpent | sampark/budget/issuance.py:109-117 | Asking again returns the rolled-back grant, which cannot be executed |
| DemoRunner.Runner.ExecuteGrant | sampark/demo/runner.py:397-471 | The whole compensation loop over database and provider, as specified, ending honestly |
| DemoRunner.Runner.SendWithRetry | sampark/demo/runner.py:431-438 | The loop makes at most two attempts and counts the timeouts |
| RateWindow.BisectRight | sampark/demo/enforcement.py:132-139 | The bisection point: everything before is at most the cutoff, everything from it on later |
| RateWindow.Insort | sampark/demo/enforcement.py:141-143 | Insertion keeps the list sorted and adds exactly one stamp |
| RateWindow.AgentRateWindow.CountInWindow | sampark/demo/enforcement.py:132-139 | The bisected count equals looking at every request ever recorded |
| RateWindow.AgentRateWindow.Record | sampark/demo/enforcement.py:141-143 | Recording adds one request to the log, at whatever instant |
| RateWindow.EvaluateAgentRate | sampark/demo/enforcement.py:149-172 | Exceeded exactly if the hour before already holds the ceiling; recorded either way |
| RateWindow.RecordStageTwoStrike | sampark/demo/enforcement.py:181-204 | Only a rate breach strikes, only an active agent can be struck, and the strike is saved |
| RateWindow.Gatekeeper.FilterArriving | sampark/demo/runner.py:265-283 | The gate over a day's requests gives the specified verdicts, strikes and survivors |
| Enforcement.EveryHourIsWithinTheCeiling | sampark/demo/enforcement.py:149-172 | No hour holds more admitted requests of an agent than its ceiling, for all instants in any order of processing |
| Enforcement.GateMeans | sampark/demo/enforcement.py:149-204 | The gate in full: out of scope leaves no trace; any other request is logged and admitted exactly if fewer than the ceiling came in the hour before; one too many is a strike, the third revokes |
| Enforcement.StrikesAreBreaches | sampark/registry/strikes.py:44-60 | Strikes equal rate breaches; the agent is revoked exactly at the third, which is reported once, or by hand |
| Enforcement.RevokedIsTurnedAway | sampark/registry/scope.py:48-68 | Supporting: a revoked agent is denied on scope, and neither counted nor struck again |
| Holdout.StrataPartition | sim/holdout.py:66-82 | The strata together are the customers in order of amount, each once |
| Holdout.OrderedByAmount | sim/holdout.py:66-72 | The order is by amount, and by identifier between equal amounts |
| Holdout.FractionInBasisPoints | sim/holdout.py:105-107 | A fraction is taken to the nearest hundredth of a percent |
| Holdout.StrataAreOrdered | sim/holdout.py:70-82 | Lower strata come first, and sizes differ by at most one, the lower being larger |
| Holdout.AssignmentCounts | sim/holdout.py:85-115 | The holdout is a set of customers with exactly the floor of the fraction from every stratum |
| Holdout.WithinFiveOfTheFraction | sim/holdout.py:85-115 | The total is never above the fraction and fewer than five customers below it |
| Holdout.LowestRanksAreHeldOut | sim/holdout.py:110-114 | In each stratum it is the lowest ranks that are held out |
| Holdout.SmallerFractionIsNested | sim/holdout.py:85-115 | A smaller fraction's holdout is a subset of a larger one's |
| Holdout.OnlyContentsMatter | sim/holdout.py:66-115 | The assignment does not depend on the order the mapping was built in |
| Holdout.ComputeStrata | sim/holdout.py:66-82 | The accumulator loop cuts the specified strata |
| Holdout.AssignHoldout | sim/holdout.py:85-115 | The selection loop collects the specified holdout, and rejects fractions outside [0, 1) |
| Holdout.CustomerAmounts | sim/holdout.py:127-139 | The loop maps exactly the customers with items to the sums of their items, or fails on an unmapped item |

## Left out

- Hash and identifier internals: SHA-256, uuid5, Ed25519 and the timestamp format. The audit proofs take the hash and the timestamp format as parameters and say in a `requires` where they must be collision-free or never the genesis value. A grant's identifier is a constructor applied to its request's, so it is collision-free by construction; the request identifiers of a run are a parameter, injective by `RunInvariant.ValidSetup`.
- The irrational constant DECAY ** 4.0707 of the fatigue cost is a parameter between 0.5105 and 0.5115.
- Machine numbers: Python integers are unbounded; floating-point scores and the product in the holdout fraction are reals here, rounded half to even.
- Identifiers as text: customer and risk identifiers are compared as integers, not as strings.
- Text beyond Unicode scalar values: lone surrogates, Python's limit on digits of an integer, and mapping keys that are not strings are not part of this model.
- Two dictionaries per ledger table: grants are one sequence searched by either identifier, since both indexes hold the same records.
- Lookups by request: a granted outcome carries its own request and rate, where the program looks them up in dictionaries built from the same outcomes.
- Scores of losers: an outcome carries its candidate's own score, where the program looks it up by risk identifier.
- Advisory facts: the `fact_unavailable` codes carried along by the filter change no decision.
- Environment.Environment.Observe: does not model the opt-out draw of the second world or the per-customer contact counter; whether a contact recovers is any function of its place in the run, so every sequence of outcomes is covered.
- ArmB.ExecuteGrants: does not model the opt-out write-back of the second world; opt-outs are fixed for a run, and `Noninterference.DecisionsIgnoreOutcomes` is about such runs.
- ArmB.RunWindowLoop: the same, being the loop around it.
- Compliance.ComputeComplianceMetrics: does not model the `fact_unavailable` counts by intent, which judge nothing.
- Chain.VerifyChain: does not model the reconciliation of grants and credits (sampark/audit/chain.py:323-362), two queries beside the chain.
- ConcurrencySafety.NoDeadlock: is about the two pool rows of the transaction model; the waits on the request's and the contact state's rows are in `LockOrder`, which models locking only.
- ArmB.RunArmBHoldout: does not model the audit events or the membership digest; who is held out is a parameter, which `Holdout` assigns.
- Agents' own eligibility: `Shipped` has what the cart and payment agents ask for about an item; the other two are registered and ask for nothing here.
- Environment.Environment.ObserveNatural: does not model the refusal in a world without natural outcomes, a configuration error.
- Random draws, recovery and opt-out probabilities: an outcome is any function of the contact's place in the run, the candidate and the rate.
- Expiry sweeps: `expire` is modelled, not the loop that applies it to everything overdue.
- Ranking of windows by ceiling, the ratio of achieved to optimal, and everything printed or written to files.
- Audit events: what is emitted along the way.
- Audit append: a commit and the release of its lock are one step, as the transaction-scoped advisory lock makes them.
- Concurrent lifecycle calls: the interleaving proof covers issuances; lifecycle calls run one at a time.
- The contact-state cache, the advisory pre-check, database plumbing, HTTP and user interface, model scoring and its loss mid-window.
- `record_scope_denial`: strikes for scope violations (sampark/registry/strikes.py:63-75) are not called by the demo's gate.
