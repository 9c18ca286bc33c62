/**
 * The independent compliance checker (sim/mediation_metrics.py): it sees only the contacts made,
 * never the decisions behind them.  Its counters are tied to plain statements about any two or
 * three contacts of a customer.
 */
module Compliance {
  import opened Clock
  import opened Contracts
  import opened Counting
  import opened HardFilter
  import opened Ledger
  import opened Margin
  import opened Sorting

  datatype ContactRecord = ContactRecord(customerId: CustomerId, incentiveBps: int, sendAfter: Instant)

  datatype Report = Report(
    quietHourViolations: nat, cap24hBreaches: nat, cap7dBreaches: nat, customersContacted3Plus: nat,
    conflictingActionIncidents: nat, disputeOpenViolations: nat)

  // ---- Counting, as values ----

  predicate InstantLe(a: Instant, b: Instant) {
    a <= b
  }

  function OwnTimes(records: seq<ContactRecord>, customer: CustomerId): seq<Instant> {
    if records == [] then [] else
      var n := |records| - 1;
      OwnTimes(records[..n], customer) + (if records[n].customerId == customer then [records[n].sendAfter] else [])
  }

  /** A customer's contacts in time order. */
  function TimesOf(records: seq<ContactRecord>, customer: CustomerId): seq<Instant> {
    Sort(OwnTimes(records, customer), InstantLe)
  }

  function Within(history: seq<Instant>, t: Instant, span: int): nat {
    if history == [] then 0 else
      var n := |history| - 1;
      Within(history[..n], t, span) + (if t - history[n] < span then 1 else 0)
  }

  function Breaches(times: seq<Instant>, span: int, cap: int): nat {
    if times == [] then 0 else
      var n := |times| - 1;
      Breaches(times[..n], span, cap) + (if Within(times[..n], times[n], span) >= cap then 1 else 0)
  }

  predicate Crowded(times: seq<Instant>) {
    times != [] && var n := |times| - 1; Crowded(times[..n]) || Within(times[..n], times[n], DAY) + 1 >= 3
  }

  function CountIn(times: seq<Instant>, w: Window): nat {
    if times == [] then 0 else
      var n := |times| - 1;
      CountIn(times[..n], w) + (if WindowIdFor(times[n]) == w then 1 else 0)
  }

  function WindowsOf(times: seq<Instant>): seq<Window> {
    if times == [] then [] else WindowsOf(times[..|times| - 1]) + [WindowIdFor(times[|times| - 1])]
  }

  /** Each key once, in the order first seen. */
  function FirstSeen(keys: seq<int>): seq<int> {
    if keys == [] then [] else
      var n := |keys| - 1;
      var earlier := FirstSeen(keys[..n]);
      if keys[n] in earlier then earlier else earlier + [keys[n]]
  }

  lemma {:induction false} FirstSeenFacts(keys: seq<int>)
    ensures Distinct(FirstSeen(keys)) && forall k :: k in keys <==> k in FirstSeen(keys)
  {
    if keys != [] {
      var n := |keys| - 1;
      FirstSeenFacts(keys[..n]);
      assert keys == keys[..n] + [keys[n]];
    }
  }

  function Excess(times: seq<Instant>, windows: seq<Window>): nat {
    if windows == [] then 0 else
      var n := |windows| - 1;
      Excess(times, windows[..n]) + Max(0, CountIn(times, windows[n]) - 1)
  }

  function Conflicts(times: seq<Instant>): nat {
    Excess(times, FirstSeen(WindowsOf(times)))
  }

  function CustomerIds(records: seq<ContactRecord>): seq<CustomerId> {
    if records == [] then [] else CustomerIds(records[..|records| - 1]) + [records[|records| - 1].customerId]
  }

  /** The counters kept per customer. */
  datatype Counter = Cap24h | Cap7d | ThreePlus | Conflicting

  function CountFor(k: Counter, times: seq<Instant>): nat {
    match k
    case Cap24h => Breaches(times, DAY, CONTACT_CAP_24H)
    case Cap7d => Breaches(times, 7 * DAY, CONTACT_CAP_7D)
    case ThreePlus => if Crowded(times) then 1 else 0
    case Conflicting => Conflicts(times)
  }

  function SumOver(records: seq<ContactRecord>, customers: seq<CustomerId>, k: Counter): nat {
    if customers == [] then 0 else
      var n := |customers| - 1;
      SumOver(records, customers[..n], k) + CountFor(k, TimesOf(records, customers[n]))
  }

  function QuietCount(records: seq<ContactRecord>): nat {
    if records == [] then 0 else
      var n := |records| - 1;
      QuietCount(records[..n]) + (if IsQuietHours(records[n].sendAfter) then 1 else 0)
  }

  predicate OffersDespiteDispute(world: World, r: ContactRecord) {
    r.incentiveBps > 0 && DisputeOpen(world, r.customerId)
  }

  function DisputeCount(world: World, records: seq<ContactRecord>): nat {
    if records == [] then 0 else
      var n := |records| - 1;
      DisputeCount(world, records[..n]) + (if OffersDespiteDispute(world, records[n]) then 1 else 0)
  }

  function Assess(world: World, records: seq<ContactRecord>): Report {
    var customers := FirstSeen(CustomerIds(records));
    Report(QuietCount(records), SumOver(records, customers, Cap24h), SumOver(records, customers, Cap7d),
           SumOver(records, customers, ThreePlus), SumOver(records, customers, Conflicting),
           DisputeCount(world, records))
  }

  // ---- The checker's loops ----

  /** Counts one customer's contacts in time order against the growing history. */
  method CountBreaches(times: seq<Instant>) returns (cap24h: nat, cap7d: nat, crowded: bool)
    ensures cap24h == Breaches(times, DAY, CONTACT_CAP_24H)
    ensures cap7d == Breaches(times, 7 * DAY, CONTACT_CAP_7D)
    ensures crowded <==> Crowded(times)
  {
    cap24h, cap7d, crowded := 0, 0, false;
    var history: seq<Instant> := [];
    var i := 0;
    while i < |times|
      invariant 0 <= i <= |times| && history == times[..i]
      invariant cap24h == Breaches(times[..i], DAY, CONTACT_CAP_24H)
      invariant cap7d == Breaches(times[..i], 7 * DAY, CONTACT_CAP_7D)
      invariant crowded <==> Crowded(times[..i])
    {
      assert times[..i + 1][..i] == times[..i];
      var in24h, in7d := Within(history, times[i], DAY), Within(history, times[i], 7 * DAY);
      if in24h >= CONTACT_CAP_24H {
        cap24h := cap24h + 1;
      }
      if in7d >= CONTACT_CAP_7D {
        cap7d := cap7d + 1;
      }
      if in24h + 1 >= 3 {
        crowded := true;
      }
      history := history + [times[i]];
      i := i + 1;
    }
    assert times[..i] == times;
  }

  /** More than one contact in a window: tallied per window, then the excess summed. */
  method CountConflicts(times: seq<Instant>) returns (conflicts: nat)
    ensures conflicts == Conflicts(times)
  {
    var byWindow: map<Window, nat> := map[];
    var order: seq<Window> := [];
    var i := 0;
    while i < |times|
      invariant 0 <= i <= |times|
      invariant order == FirstSeen(WindowsOf(times[..i]))
      invariant forall w :: w in byWindow <==> w in order
      invariant forall w :: (if w in byWindow then byWindow[w] else 0) == CountIn(times[..i], w)
    {
      assert times[..i + 1][..i] == times[..i];
      assert WindowsOf(times[..i + 1])[..|WindowsOf(times[..i])|] == WindowsOf(times[..i]);
      var w := WindowIdFor(times[i]);
      if w !in byWindow {
        order := order + [w];
      }
      byWindow := byWindow[w := (if w in byWindow then byWindow[w] else 0) + 1];
      i := i + 1;
    }
    assert times[..i] == times;
    conflicts := 0;
    var j := 0;
    while j < |order|
      invariant 0 <= j <= |order| && conflicts == Excess(times, order[..j])
    {
      assert order[..j + 1][..j] == order[..j];
      var w := order[j];
      assert w in order;
      var n: int := byWindow[w];
      conflicts := conflicts + Max(0, n - 1);
      j := j + 1;
    }
    assert order[..j] == order;
  }

  function Listed(byCustomer: map<CustomerId, seq<Instant>>, c: CustomerId): seq<Instant> {
    if c in byCustomer then byCustomer[c] else []
  }

  function AddTime(byCustomer: map<CustomerId, seq<Instant>>, r: ContactRecord): map<CustomerId, seq<Instant>> {
    byCustomer[r.customerId := Listed(byCustomer, r.customerId) + [r.sendAfter]]
  }

  function Groups(records: seq<ContactRecord>): map<CustomerId, seq<Instant>> {
    if records == [] then map[] else AddTime(Groups(records[..|records| - 1]), records[|records| - 1])
  }

  lemma {:induction false} GroupOf(records: seq<ContactRecord>, c: CustomerId)
    ensures Listed(Groups(records), c) == OwnTimes(records, c)
    ensures c in Groups(records) <==> c in FirstSeen(CustomerIds(records))
  {
    if records != [] {
      var n := |records| - 1;
      GroupOf(records[..n], c);
      GroupOf(records[..n], records[n].customerId);
      assert CustomerIds(records)[..n] == CustomerIds(records[..n]) by {
        CustomerIdsLength(records[..n]);
      }
      CustomerIdsLength(records);
    }
  }

  lemma {:induction false} CustomerIdsLength(records: seq<ContactRecord>)
    ensures |CustomerIds(records)| == |records|
    ensures records != [] ==> CustomerIds(records)[..|records| - 1] == CustomerIds(records[..|records| - 1])
  {
    if records != [] {
      CustomerIdsLength(records[..|records| - 1]);
    }
  }

  method GroupTimes(records: seq<ContactRecord>)
    returns (byCustomer: map<CustomerId, seq<Instant>>, order: seq<CustomerId>)
    ensures byCustomer == Groups(records) && order == FirstSeen(CustomerIds(records))
  {
    byCustomer, order := map[], [];
    var i := 0;
    while i < |records|
      invariant 0 <= i <= |records|
      invariant byCustomer == Groups(records[..i]) && order == FirstSeen(CustomerIds(records[..i]))
    {
      assert records[..i + 1][..i] == records[..i];
      CustomerIdsLength(records[..i + 1]);
      GroupOf(records[..i], records[i].customerId);
      if records[i].customerId !in byCustomer {
        order := order + [records[i].customerId];
      }
      byCustomer := AddTime(byCustomer, records[i]);
      i := i + 1;
    }
    assert records[..i] == records;
  }

  method CountViolations(world: World, records: seq<ContactRecord>) returns (quiet: nat, disputed: nat)
    ensures quiet == QuietCount(records) && disputed == DisputeCount(world, records)
  {
    quiet, disputed := 0, 0;
    var i := 0;
    while i < |records|
      invariant 0 <= i <= |records|
      invariant quiet == QuietCount(records[..i]) && disputed == DisputeCount(world, records[..i])
    {
      assert records[..i + 1][..i] == records[..i];
      if IsQuietHours(records[i].sendAfter) {
        quiet := quiet + 1;
      }
      if records[i].incentiveBps > 0 && DisputeOpen(world, records[i].customerId) {
        disputed := disputed + 1;
      }
      i := i + 1;
    }
    assert records[..i] == records;
  }

  /** One customer's contribution to the four per-customer counters. */
  method CountCustomer(times: seq<Instant>) returns (cap24h: nat, cap7d: nat, threePlus: nat, conflicts: nat)
    ensures cap24h == CountFor(Cap24h, times) && cap7d == CountFor(Cap7d, times)
    ensures threePlus == CountFor(ThreePlus, times) && conflicts == CountFor(Conflicting, times)
  {
    var crowded;
    cap24h, cap7d, crowded := CountBreaches(times);
    threePlus := if crowded then 1 else 0;
    conflicts := CountConflicts(times);
  }

  lemma SumOverLast(records: seq<ContactRecord>, order: seq<CustomerId>, j: nat, k: Counter)
    requires j < |order|
    ensures SumOver(records, order[..j + 1], k)
            == SumOver(records, order[..j], k) + CountFor(k, TimesOf(records, order[j]))
  {
    assert order[..j + 1][..j] == order[..j];
  }

  method ComputeComplianceMetrics(world: World, records: seq<ContactRecord>) returns (report: Report)
    ensures report == Assess(world, records)
  {
    var byCustomer, order := GroupTimes(records);
    var quiet, disputed := CountViolations(world, records);
    var cap24h, cap7d, threePlus, conflicts := 0, 0, 0, 0;
    var j := 0;
    while j < |order|
      invariant 0 <= j <= |order|
      invariant cap24h == SumOver(records, order[..j], Cap24h)
      invariant cap7d == SumOver(records, order[..j], Cap7d)
      invariant threePlus == SumOver(records, order[..j], ThreePlus)
      invariant conflicts == SumOver(records, order[..j], Conflicting)
    {
      GroupOf(records, order[j]);
      SumOverLast(records, order, j, Cap24h);
      SumOverLast(records, order, j, Cap7d);
      SumOverLast(records, order, j, ThreePlus);
      SumOverLast(records, order, j, Conflicting);
      var b24, b7, many, clash := CountCustomer(Sort(Listed(byCustomer, order[j]), InstantLe));
      cap24h, cap7d, threePlus, conflicts := cap24h + b24, cap7d + b7, threePlus + many, conflicts + clash;
      j := j + 1;
    }
    assert order[..j] == order;
    report := Report(quiet, cap24h, cap7d, threePlus, conflicts, disputed);
  }
}
