/**
 * What the compliance report counts (sim/mediation_metrics.py), said of the contacts themselves:
 * every figure is the number of contacts, or of customers, of which something plain holds.
 */
module ComplianceCounts {
  import opened Clock
  import opened Compliance
  import opened Contracts
  import opened Counting
  import opened Ledger
  import opened Sorting

  // ---- Quiet hours and disputes ----

  /** Not within the twelve hours from 09:00 of its own day. */
  ghost predicate AtQuietTime(r: ContactRecord) {
    var nine := WindowStartFor(WindowIdFor(r.sendAfter));
    !(nine <= r.sendAfter < nine + 12 * HOUR)
  }

  lemma {:induction false} QuietCountIs(records: seq<ContactRecord>)
    ensures QuietCount(records) == |Where(records, (r: ContactRecord) => AtQuietTime(r))|
  {
    var p := (r: ContactRecord) => AtQuietTime(r);
    if records == [] {
      assert Where(records, p) == {};
    } else {
      var n := |records| - 1;
      QuietCountIs(records[..n]);
      SendableBand(records[n].sendAfter);
      WhereLast(records, p);
    }
  }

  /** An incentive was offered to somebody with a disputed item. */
  ghost predicate OfferedInDispute(world: World, r: ContactRecord) {
    r.incentiveBps > 0 && r.customerId in world.riskItems
    && exists item :: item in world.riskItems[r.customerId] && item.rootCause == "disputed"
  }

  lemma DisputeIs(world: World, r: ContactRecord)
    ensures OffersDespiteDispute(world, r) <==> OfferedInDispute(world, r)
  {
    var items := RiskItemsFor(world, r.customerId);
    if i :| 0 <= i < |items| && items[i].rootCause == "disputed" {
      assert items[i] in items;
    }
  }

  lemma {:induction false} DisputeCountIs(world: World, records: seq<ContactRecord>)
    ensures DisputeCount(world, records) == |Where(records, (r: ContactRecord) => OfferedInDispute(world, r))|
  {
    var p := (r: ContactRecord) => OfferedInDispute(world, r);
    if records == [] {
      assert Where(records, p) == {};
    } else {
      var n := |records| - 1;
      DisputeCountIs(world, records[..n]);
      DisputeIs(world, records[n]);
      WhereLast(records, p);
    }
  }

  // ---- Contacts too close together ----

  /** The earlier contacts less than a span before the j-th. */
  ghost function Shortly(times: seq<Instant>, j: nat, span: int): set<nat>
    requires j < |times|
  {
    set i: nat | i < j && times[j] - times[i] < span
  }

  /** The contacts that come when the span before them already holds as many as the cap allows. */
  ghost function OverCap(times: seq<Instant>, span: int, cap: nat): set<nat> {
    set j: nat | j < |times| && |Shortly(times, j, span)| >= cap
  }

  lemma {:induction false} WithinIs(history: seq<Instant>, t: Instant, span: int)
    ensures Within(history, t, span) == |Where(history, (u: Instant) => t - u < span)|
  {
    var p := (u: Instant) => t - u < span;
    if history == [] {
      assert Where(history, p) == {};
    } else {
      WithinIs(history[..|history| - 1], t, span);
      WhereLast(history, p);
    }
  }

  lemma ShortlyIs(times: seq<Instant>, j: nat, span: int)
    requires j < |times|
    ensures |Shortly(times, j, span)| == Within(times[..j], times[j], span)
  {
    WithinIs(times[..j], times[j], span);
    assert Where(times[..j], (u: Instant) => times[j] - u < span) == Shortly(times, j, span);
  }

  lemma ShortlyOfPrefix(times: seq<Instant>, n: nat, j: nat, span: int)
    requires j < n <= |times|
    ensures Shortly(times[..n], j, span) == Shortly(times, j, span)
  {
  }

  lemma OverCapLast(times: seq<Instant>, span: int, cap: nat)
    requires times != []
    ensures var n := |times| - 1;
            |OverCap(times, span, cap)|
            == |OverCap(times[..n], span, cap)| + (if |Shortly(times, n, span)| >= cap then 1 else 0)
  {
    var n := |times| - 1;
    forall j: nat | j < n ensures Shortly(times[..n], j, span) == Shortly(times, j, span) {
      ShortlyOfPrefix(times, n, j, span);
    }
    var last := if |Shortly(times, n, span)| >= cap then {n} else {};
    assert OverCap(times, span, cap) == OverCap(times[..n], span, cap) + last;
  }

  lemma {:induction false} BreachesAre(times: seq<Instant>, span: int, cap: nat)
    ensures Breaches(times, span, cap) == |OverCap(times, span, cap)|
  {
    if times == [] {
      assert OverCap(times, span, cap) == {};
    } else {
      var n := |times| - 1;
      BreachesAre(times[..n], span, cap);
      OverCapLast(times, span, cap);
      ShortlyIs(times, n, span);
    }
  }

  /** Some contact is the third or later within a day. */
  ghost predicate ThreeInADay(times: seq<Instant>) {
    OverCap(times, DAY, 2) != {}
  }

  lemma {:induction false} CrowdedIs(times: seq<Instant>)
    ensures Crowded(times) <==> ThreeInADay(times)
  {
    if times != [] {
      var n := |times| - 1;
      CrowdedIs(times[..n]);
      ShortlyIs(times, n, DAY);
      OverCapLast(times, DAY, 2);
    }
  }

  // ---- Contacts in one window ----

  /** The windows in which there was a contact. */
  ghost function WindowsUsed(times: seq<Instant>): set<Window> {
    set i | 0 <= i < |times| :: WindowIdFor(times[i])
  }

  lemma {:induction false} CountInIs(times: seq<Instant>, w: Window)
    ensures CountIn(times, w) == |Where(times, (t: Instant) => WindowIdFor(t) == w)|
  {
    var p := (t: Instant) => WindowIdFor(t) == w;
    if times == [] {
      assert Where(times, p) == {};
    } else {
      CountInIs(times[..|times| - 1], w);
      WhereLast(times, p);
    }
  }

  /** One contact more adds one to the excess exactly if its window is among those listed and used. */
  lemma {:induction false} ExcessOneMore(times: seq<Instant>, windows: seq<Window>)
    requires times != [] && Distinct(windows)
    ensures var n := |times| - 1;
            var w := WindowIdFor(times[n]);
            Excess(times, windows)
            == Excess(times[..n], windows) + (if w in windows && CountIn(times[..n], w) > 0 then 1 else 0)
    decreases |windows|
  {
    if windows != [] {
      var m := |windows| - 1;
      ExcessOneMore(times, windows[..m]);
      assert windows == windows[..m] + [windows[m]];
    }
  }

  lemma ExcessOfUnused(times: seq<Instant>, windows: seq<Window>, w: Window)
    requires CountIn(times, w) == 0
    ensures Excess(times, windows + [w]) == Excess(times, windows)
  {
    assert (windows + [w])[..|windows|] == windows;
  }

  lemma {:induction false} WindowsOfMembers(times: seq<Instant>)
    ensures |WindowsOf(times)| == |times|
    ensures forall i :: 0 <= i < |times| ==> WindowsOf(times)[i] == WindowIdFor(times[i])
  {
    if times != [] {
      WindowsOfMembers(times[..|times| - 1]);
    }
  }

  lemma UsedMembers(times: seq<Instant>, w: Window)
    ensures w in WindowsUsed(times) <==> CountIn(times, w) > 0
    ensures w in WindowsUsed(times) <==> w in FirstSeen(WindowsOf(times))
  {
    CountInIs(times, w);
    WindowsOfMembers(times);
    FirstSeenFacts(WindowsOf(times));
    var p := (t: Instant) => WindowIdFor(t) == w;
    if i :| 0 <= i < |times| && WindowIdFor(times[i]) == w {
      assert (i as nat) in Where(times, p);
      assert WindowsOf(times)[i] == w;
    }
    if Where(times, p) != {} {
      var i: nat :| i in Where(times, p);
      assert WindowIdFor(times[i]) == w;
    }
  }

  /** Conflicts are the contacts there are more than windows they are in. */
  lemma {:induction false} ConflictsAre(times: seq<Instant>)
    ensures Conflicts(times) + |WindowsUsed(times)| == |times|
  {
    if times == [] {
      assert WindowsUsed(times) == {};
    } else {
      var n := |times| - 1;
      var w := WindowIdFor(times[n]);
      ConflictsAre(times[..n]);
      assert WindowsUsed(times) == WindowsUsed(times[..n]) + {w} by {
        assert forall i :: 0 <= i < n ==> times[..n][i] == times[i];
      }
      UsedMembers(times[..n], w);
      ConflictsOneMore(times);
    }
  }

  lemma ConflictsOneMore(times: seq<Instant>)
    requires times != []
    ensures var n := |times| - 1;
            Conflicts(times) == Conflicts(times[..n]) + (if CountIn(times[..n], WindowIdFor(times[n])) > 0 then 1
                                                         else 0)
  {
    var n := |times| - 1;
    var w := WindowIdFor(times[n]);
    var before, seen := FirstSeen(WindowsOf(times[..n])), FirstSeen(WindowsOf(times));
    assert WindowsOf(times)[..|WindowsOf(times[..n])|] == WindowsOf(times[..n]);
    FirstSeenFacts(WindowsOf(times));
    ExcessOneMore(times, seen);
    UsedMembers(times[..n], w);
    if w !in before {
      ExcessOfUnused(times[..n], before, w);
    }
  }

  // ---- The report ----

  lemma {:induction false} OwnTimesAre(records: seq<ContactRecord>, customer: CustomerId, t: Instant)
    ensures multiset(OwnTimes(records, customer))[t]
            == |Where(records, (r: ContactRecord) => r.customerId == customer && r.sendAfter == t)|
  {
    var p := (r: ContactRecord) => r.customerId == customer && r.sendAfter == t;
    if records == [] {
      assert Where(records, p) == {};
    } else {
      var n := |records| - 1;
      OwnTimesAre(records[..n], customer, t);
      WhereLast(records, p);
    }
  }

  /** A customer's contact times, ascending, each as often as it occurs. */
  lemma TimesAre(records: seq<ContactRecord>, customer: CustomerId)
    ensures var times := TimesOf(records, customer);
            && (forall i, j :: 0 <= i < j < |times| ==> times[i] <= times[j])
            && (forall t :: multiset(times)[t]
                            == |Where(records, (r: ContactRecord) => r.customerId == customer && r.sendAfter == t)|)
  {
    SortSorts(OwnTimes(records, customer), InstantLe);
    forall t ensures multiset(OwnTimes(records, customer))[t]
                     == |Where(records, (r: ContactRecord) => r.customerId == customer && r.sendAfter == t)|
    {
      OwnTimesAre(records, customer, t);
    }
    var times := TimesOf(records, customer);
    forall i, j | 0 <= i < j < |times| ensures times[i] <= times[j] {
      assert InstantLe(times[i], times[j]);
    }
  }

  /** How much a customer adds to a figure of the report. */
  ghost function Share(k: Counter, times: seq<Instant>): nat {
    match k
    case Cap24h => |OverCap(times, DAY, 1)|
    case Cap7d => |OverCap(times, 7 * DAY, 2)|
    case ThreePlus => if ThreeInADay(times) then 1 else 0
    case Conflicting => if |WindowsUsed(times)| <= |times| then |times| - |WindowsUsed(times)| else 0
  }

  lemma ShareIs(k: Counter, times: seq<Instant>)
    ensures CountFor(k, times) == Share(k, times)
  {
    BreachesAre(times, DAY, 1);
    BreachesAre(times, 7 * DAY, 2);
    CrowdedIs(times);
    ConflictsAre(times);
    hide Breaches, OverCap, Crowded, Conflicts, WindowsUsed;
  }

  lemma {:induction false} SumIs(records: seq<ContactRecord>, customers: seq<CustomerId>, k: Counter)
    ensures SumOver(records, customers, k)
            == Total(customers, (c: CustomerId) => Share(k, TimesOf(records, c)))
  {
    if customers != [] {
      var n := |customers| - 1;
      SumIs(records, customers[..n], k);
      ShareIs(k, TimesOf(records, customers[n]));
    }
  }

  lemma {:induction false} CustomersAre(records: seq<ContactRecord>)
    ensures |CustomerIds(records)| == |records|
    ensures forall i :: 0 <= i < |records| ==> CustomerIds(records)[i] == records[i].customerId
  {
    if records != [] {
      CustomersAre(records[..|records| - 1]);
    }
  }

  /** The customers contacted, each once. */
  ghost predicate Contacted(records: seq<ContactRecord>, customers: seq<CustomerId>) {
    Distinct(customers) && forall c :: c in customers <==> exists i :: 0 <= i < |records| && records[i].customerId == c
  }

  /**
   * The whole report: contacts at quiet times; contacts with one earlier contact of the customer within
   * a day, or two within seven; customers with three in a day; contacts beyond one per window; and
   * incentives offered to customers with a disputed item.
   */
  lemma ReportMeans(world: World, records: seq<ContactRecord>) returns (customers: seq<CustomerId>)
    ensures Contacted(records, customers)
    ensures var r := Assess(world, records);
            && r.quietHourViolations == |Where(records, (x: ContactRecord) => AtQuietTime(x))|
            && r.disputeOpenViolations == |Where(records, (x: ContactRecord) => OfferedInDispute(world, x))|
            && r.cap24hBreaches == Total(customers, (c: CustomerId) => Share(Cap24h, TimesOf(records, c)))
            && r.cap7dBreaches == Total(customers, (c: CustomerId) => Share(Cap7d, TimesOf(records, c)))
            && r.customersContacted3Plus == Total(customers, (c: CustomerId) => Share(ThreePlus, TimesOf(records, c)))
            && r.conflictingActionIncidents
               == Total(customers, (c: CustomerId) => Share(Conflicting, TimesOf(records, c)))
  {
    customers := FirstSeen(CustomerIds(records));
    FirstSeenFacts(CustomerIds(records));
    CustomersAre(records);
    forall c ensures c in customers <==> exists i :: 0 <= i < |records| && records[i].customerId == c {
      assert c in CustomerIds(records) <==> exists i :: 0 <= i < |records| && records[i].customerId == c;
    }
    QuietCountIs(records);
    DisputeCountIs(world, records);
    SumIs(records, customers, Cap24h);
    SumIs(records, customers, Cap7d);
    SumIs(records, customers, ThreePlus);
    SumIs(records, customers, Conflicting);
    hide QuietCount, DisputeCount, SumOver, Share, Where;
  }
}
