/**
 * Guard implies checker: the checker's counters are zero exactly when contacts are spaced, and the
 * contacts of every mediated run are spaced, although the guard counts at the start of the window
 * and the checker at the time of sending.
 */
module RunCompliance {
  import opened Clock
  import opened Compliance
  import opened Contracts
  import opened Counting
  import opened Ledger
  import opened LedgerMeaning
  import opened PolicyMeaning
  import opened RunExecution
  import opened RunInvariant
  import opened RunSafety
  import opened Sorting
  import opened WindowLoop

  // ---- What the counters mean ----

  ghost predicate PairsApart(times: seq<Instant>, span: int) {
    forall i, j :: 0 <= i < j < |times| ==> times[j] - times[i] >= span
  }

  /** Of any three contacts, the first and the last are at least `span` apart. */
  ghost predicate TriplesApart(times: seq<Instant>, span: int) {
    forall i, k :: 0 <= i && i + 2 <= k < |times| ==> times[k] - times[i] >= span
  }

  lemma {:induction false} WithinNone(history: seq<Instant>, t: Instant, span: int)
    ensures Within(history, t, span) == 0 <==> forall i :: 0 <= i < |history| ==> t - history[i] >= span
  {
    if history != [] {
      WithinNone(history[..|history| - 1], t, span);
    }
  }

  lemma {:induction false} WithinAtMostOne(history: seq<Instant>, t: Instant, span: int)
    requires Sorted(history, InstantLe)
    ensures Within(history, t, span) <= 1 <==> forall i :: 0 <= i < |history| - 1 ==> t - history[i] >= span
  {
    if history != [] {
      var n := |history| - 1;
      var earlier := history[..n];
      WithinNone(earlier, t, span);
      if t - history[n] >= span {
        forall i | 0 <= i < n ensures t - earlier[i] >= span {
          assert InstantLe(history[i], history[n]);
        }
      } else {
        assert forall i :: 0 <= i < n ==> earlier[i] == history[i];
      }
    }
  }

  /** No 24-hour breach: exactly when any two contacts are a day apart. */
  lemma {:induction false} NoDailyBreach(times: seq<Instant>)
    ensures Breaches(times, DAY, CONTACT_CAP_24H) == 0 <==> PairsApart(times, DAY)
  {
    if times != [] {
      var n := |times| - 1;
      NoDailyBreach(times[..n]);
      WithinNone(times[..n], times[n], DAY);
      assert PairsApart(times[..n], DAY) && Within(times[..n], times[n], DAY) == 0 ==> PairsApart(times, DAY) by {
        if PairsApart(times[..n], DAY) && Within(times[..n], times[n], DAY) == 0 {
          forall i, j | 0 <= i < j < |times| ensures times[j] - times[i] >= DAY {
            assert times[..n][i] == times[i];
            assert j < n ==> times[..n][j] == times[j];
          }
        }
      }
      assert PairsApart(times, DAY) ==> PairsApart(times[..n], DAY) && Within(times[..n], times[n], DAY) == 0;
    }
  }

  /** No seven-day breach: exactly when no three contacts fall within seven days. */
  lemma {:induction false} NoWeeklyBreach(times: seq<Instant>)
    requires Sorted(times, InstantLe)
    ensures Breaches(times, 7 * DAY, CONTACT_CAP_7D) == 0 <==> TriplesApart(times, 7 * DAY)
  {
    if times != [] {
      var n := |times| - 1;
      NoWeeklyBreach(times[..n]);
      WithinAtMostOne(times[..n], times[n], 7 * DAY);
      TriplesExtend(times, 7 * DAY);
    }
  }

  lemma TriplesExtend(times: seq<Instant>, span: int)
    requires times != []
    ensures var n := |times| - 1;
            TriplesApart(times, span) <==>
            TriplesApart(times[..n], span) && forall i :: 0 <= i < n - 1 ==> times[n] - times[..n][i] >= span
  {
    var n := |times| - 1;
    assert forall i :: 0 <= i < n ==> times[..n][i] == times[i];
  }

  ghost predicate WindowsApart(times: seq<Instant>) {
    forall i, j :: 0 <= i < j < |times| ==> WindowIdFor(times[i]) != WindowIdFor(times[j])
  }

  lemma {:induction false} CountInAtLeast(times: seq<Instant>, i: nat)
    requires i < |times|
    ensures CountIn(times, WindowIdFor(times[i])) >= 1
  {
    var n := |times| - 1;
    if i < n {
      CountInAtLeast(times[..n], i);
    }
  }

  lemma {:induction false} CountInTwice(times: seq<Instant>, i: nat, j: nat)
    requires i < j < |times| && WindowIdFor(times[i]) == WindowIdFor(times[j])
    ensures CountIn(times, WindowIdFor(times[i])) >= 2
  {
    var n := |times| - 1;
    if j < n {
      CountInTwice(times[..n], i, j);
    } else {
      CountInAtLeast(times[..n], i);
    }
  }

  lemma {:induction false} CountInApart(times: seq<Instant>, w: Window)
    requires WindowsApart(times)
    ensures CountIn(times, w) <= 1
    ensures CountIn(times, w) == 1 ==> exists i :: 0 <= i < |times| && WindowIdFor(times[i]) == w
  {
    if times != [] {
      var n := |times| - 1;
      CountInApart(times[..n], w);
      if CountIn(times[..n], w) == 1 {
        var i :| 0 <= i < |times[..n]| && WindowIdFor(times[..n][i]) == w;
        assert times[i] == times[..n][i];
      }
    }
  }

  lemma {:induction false} ExcessZero(times: seq<Instant>, windows: seq<Window>)
    ensures Excess(times, windows) == 0 <==> forall i :: 0 <= i < |windows| ==> CountIn(times, windows[i]) <= 1
  {
    if windows != [] {
      ExcessZero(times, windows[..|windows| - 1]);
    }
  }

  lemma {:induction false} SeenWindow(times: seq<Instant>, i: nat)
    requires i < |times|
    ensures WindowIdFor(times[i]) in FirstSeen(WindowsOf(times))
  {
    var n := |times| - 1;
    assert WindowsOf(times)[..|WindowsOf(times[..n])|] == WindowsOf(times[..n]);
    if i < n {
      SeenWindow(times[..n], i);
    }
  }

  /** No conflicting action: exactly when every contact is in a window of its own. */
  lemma NoConflict(times: seq<Instant>)
    ensures Conflicts(times) == 0 <==> WindowsApart(times)
  {
    var seen := FirstSeen(WindowsOf(times));
    ExcessZero(times, seen);
    if WindowsApart(times) {
      forall i | 0 <= i < |seen| ensures CountIn(times, seen[i]) <= 1 {
        CountInApart(times, seen[i]);
      }
    } else {
      var i, j :| 0 <= i < j < |times| && WindowIdFor(times[i]) == WindowIdFor(times[j]);
      CountInTwice(times, i, j);
      SeenWindow(times, i);
      var k :| 0 <= k < |seen| && seen[k] == WindowIdFor(times[i]);
    }
  }

  lemma {:induction false} CrowdedIsBreach(times: seq<Instant>)
    requires Crowded(times)
    ensures Breaches(times, DAY, CONTACT_CAP_24H) > 0
  {
    var n := |times| - 1;
    if Crowded(times[..n]) {
      CrowdedIsBreach(times[..n]);
    }
  }

  // ---- The contacts of a run ----

  ghost function RecordsOf(contacts: seq<Contact>): seq<ContactRecord> {
    if contacts == [] then [] else
      var n := |contacts| - 1;
      RecordsOf(contacts[..n])
        + [ContactRecord(contacts[n].customerId, contacts[n].incentiveBps, contacts[n].contactedAt)]
  }

  lemma {:induction false} RecordsOfIndex(contacts: seq<Contact>)
    ensures |RecordsOf(contacts)| == |contacts|
    ensures forall i :: 0 <= i < |contacts| ==>
              RecordsOf(contacts)[i] == ContactRecord(contacts[i].customerId, contacts[i].incentiveBps,
                                                      contacts[i].contactedAt)
    ensures contacts != [] ==> RecordsOf(contacts)[..|contacts| - 1] == RecordsOf(contacts[..|contacts| - 1])
  {
    if contacts != [] {
      RecordsOfIndex(contacts[..|contacts| - 1]);
    }
  }

  lemma OwnTimesStep(contacts: seq<Contact>, customer: CustomerId)
    requires contacts != []
    ensures var n := |contacts| - 1;
            var own := OwnTimes(RecordsOf(contacts[..n]), customer);
            OwnTimes(RecordsOf(contacts), customer)
            == if contacts[n].customerId == customer then own + [contacts[n].contactedAt] else own
  {
    RecordsOfIndex(contacts);
  }

  lemma WithinStep(history: seq<Instant>, sent: Instant, t: Instant, span: int, cap: int)
    ensures Within(history + [sent], t, span) == Within(history, t, span) + (if t - sent < span then 1 else 0)
    ensures Breaches(history + [sent], span, cap)
            == Breaches(history, span, cap) + (if Within(history, sent, span) >= cap then 1 else 0)
  {
    assert (history + [sent])[..|history|] == history;
  }

  /** The checker's history count at sending time is the guard's rolling count at that time. */
  lemma {:induction false} WithinIsRollingCount(cfg: RunSetup, grants: seq<GrantRecord>, contacts: seq<Contact>,
                                                customer: CustomerId, t: Instant, span: int)
    requires |grants| == |contacts| && ContactsMatch(cfg, grants, contacts)
    ensures Within(OwnTimes(RecordsOf(contacts), customer), t, span) == CountSince(grants, customer, t - span)
  {
    if contacts != [] {
      var n := |contacts| - 1;
      assert ContactOf(cfg, contacts[n], grants[n]);
      WithinIsRollingCount(cfg, grants[..n], contacts[..n], customer, t, span);
      OwnTimesStep(contacts, customer);
      WithinStep(OwnTimes(RecordsOf(contacts[..n]), customer), contacts[n].contactedAt, t, span, 0);
    }
  }

  lemma {:induction false} RunHasNoBreaches(cfg: RunSetup, grants: seq<GrantRecord>, contacts: seq<Contact>,
                                            customer: CustomerId, span: int, cap: int)
    requires |grants| == |contacts| && ContactsMatch(cfg, grants, contacts) && AllSpaced(grants)
    requires (span == DAY && cap == CONTACT_CAP_24H) || (span == 7 * DAY && cap == CONTACT_CAP_7D)
    ensures Breaches(OwnTimes(RecordsOf(contacts), customer), span, cap) == 0
  {
    if contacts != [] {
      var n := |contacts| - 1;
      PrefixSpaced(grants, n);
      RunHasNoBreaches(cfg, grants[..n], contacts[..n], customer, span, cap);
      assert ContactOf(cfg, contacts[n], grants[n]) && SpacedGrant(grants, n);
      WithinIsRollingCount(cfg, grants[..n], contacts[..n], customer, contacts[n].contactedAt, span);
      OwnTimesStep(contacts, customer);
      WithinStep(OwnTimes(RecordsOf(contacts[..n]), customer), contacts[n].contactedAt, 0, span, cap);
    }
  }

  lemma PrefixSpaced(grants: seq<GrantRecord>, n: nat)
    requires AllSpaced(grants) && n <= |grants|
    ensures AllSpaced(grants[..n])
  {
    forall j | 0 <= j < n ensures SpacedGrant(grants[..n], j) {
      assert SpacedGrant(grants, j);
      assert grants[..n][..j] == grants[..j];
    }
  }

  lemma DayApartTimes(times: seq<Instant>)
    requires PairsApart(times, DAY)
    ensures Sorted(times, InstantLe) && WindowsApart(times)
  {
    forall i, j | 0 <= i < j < |times| ensures WindowIdFor(times[i]) != WindowIdFor(times[j]) {
      assert times[j] - times[i] >= DAY;
    }
  }

  lemma CustomerIsCompliant(cfg: RunSetup, grants: seq<GrantRecord>, contacts: seq<Contact>, customer: CustomerId,
                            k: Counter)
    requires |grants| == |contacts| && ContactsMatch(cfg, grants, contacts) && AllSpaced(grants)
    ensures CountFor(k, TimesOf(RecordsOf(contacts), customer)) == 0
  {
    var times := OwnTimes(RecordsOf(contacts), customer);
    RunHasNoBreaches(cfg, grants, contacts, customer, DAY, CONTACT_CAP_24H);
    RunHasNoBreaches(cfg, grants, contacts, customer, 7 * DAY, CONTACT_CAP_7D);
    NoDailyBreach(times);
    DayApartTimes(times);
    SortedIsFixed(times, InstantLe);
    NoConflict(times);
    if Crowded(times) {
      CrowdedIsBreach(times);
    }
  }

  lemma {:induction false} SumOverZero(records: seq<ContactRecord>, customers: seq<CustomerId>, k: Counter)
    requires forall c :: CountFor(k, TimesOf(records, c)) == 0
    ensures SumOver(records, customers, k) == 0
  {
    if customers != [] {
      SumOverZero(records, customers[..|customers| - 1], k);
    }
  }

  lemma {:induction false} PermittedContacts(cfg: RunSetup, contacts: seq<Contact>)
    requires forall k :: k in contacts ==> Permitted(cfg, k)
    ensures QuietCount(RecordsOf(contacts)) == 0 && DisputeCount(cfg.setup.world, RecordsOf(contacts)) == 0
  {
    if contacts != [] {
      var n := |contacts| - 1;
      RecordsOfIndex(contacts);
      assert contacts[n] in contacts;
      PermittedContacts(cfg, contacts[..n]);
    }
  }

  /**
   * Whatever the actions, the scorer, the mode and the world's responses, the independent checker
   * finds nothing in the contacts of a mediated run.
   */
  lemma EveryRunIsCompliant(cfg: RunSetup, oracle: Oracle, actions: seq<Action>)
    requires ValidSetup(cfg, actions)
    ensures RunLoop(cfg, oracle, actions).Ok?
    ensures Assess(cfg.setup.world, RecordsOf(RunLoop(cfg, oracle, actions).value.contacts)) == Report(0, 0, 0, 0, 0, 0)
  {
    RunsEndInInvariant(cfg, oracle, actions);
    var run := RunLoop(cfg, oracle, actions).value;
    InStepIsCompliant(cfg, run.tables.grants, run.contacts);
  }

  lemma InStepIsCompliant(cfg: RunSetup, grants: seq<GrantRecord>, contacts: seq<Contact>)
    requires |grants| == |contacts| && ContactsMatch(cfg, grants, contacts) && AllSpaced(grants)
    ensures Assess(cfg.setup.world, RecordsOf(contacts)) == Report(0, 0, 0, 0, 0, 0)
  {
    var records := RecordsOf(contacts);
    forall k, c ensures CountFor(k, TimesOf(records, c)) == 0 {
      CustomerIsCompliant(cfg, grants, contacts, c, k);
    }
    var customers := FirstSeen(CustomerIds(records));
    SumOverZero(records, customers, Cap24h);
    SumOverZero(records, customers, Cap7d);
    SumOverZero(records, customers, ThreePlus);
    SumOverZero(records, customers, Conflicting);
    forall k | k in contacts ensures Permitted(cfg, k) {
      var i :| 0 <= i < |contacts| && contacts[i] == k;
    }
    PermittedContacts(cfg, contacts);
  }

  // ---- The same, of the contacts themselves ----

  /** Two contacts of one customer. */
  ghost predicate SameCustomer(contacts: seq<Contact>, i: nat, j: nat)
    requires i < |contacts| && j < |contacts|
  {
    contacts[i].customerId == contacts[j].customerId
  }

  /** Any two contacts of a customer are a day apart, and the first and last of any three seven days. */
  ghost predicate KeepApart(contacts: seq<Contact>) {
    && (forall i: nat, j: nat :: i < j < |contacts| && SameCustomer(contacts, i, j) ==>
          contacts[j].contactedAt - contacts[i].contactedAt >= 24 * HOUR)
    && (forall i: nat, j: nat, k: nat ::
          i < j < k < |contacts| && SameCustomer(contacts, i, j) && SameCustomer(contacts, j, k) ==>
            contacts[k].contactedAt - contacts[i].contactedAt >= 7 * 24 * HOUR)
  }

  /** Within the twelve hours from 09:00, over a channel still wanted, and without a gift to a disputing customer. */
  ghost predicate ProperContact(cfg: RunSetup, k: Contact) {
    var nine := WindowStartFor(WindowIdFor(k.contactedAt));
    && nine <= k.contactedAt < nine + 12 * HOUR
    && (k.customerId in cfg.optOuts ==> k.channel !in cfg.optOuts[k.customerId])
    && (k.incentiveBps > 0 && k.customerId in cfg.setup.world.riskItems ==>
          forall item: RiskItem :: item in cfg.setup.world.riskItems[k.customerId] ==> item.rootCause != "disputed")
  }

  lemma PermittedIsProper(cfg: RunSetup, k: Contact)
    requires Permitted(cfg, k)
    ensures ProperContact(cfg, k)
  {
    SendableBand(k.contactedAt);
    DisputeMeans(cfg.setup.world, k.customerId);
  }

  /** A grant confirmed for an earlier contact of the customer is counted unless it is old enough. */
  lemma EarlierIsCounted(cfg: RunSetup, grants: seq<GrantRecord>, contacts: seq<Contact>, i: nat, j: nat,
                         after: Instant)
    requires |grants| == |contacts| && ContactsMatch(cfg, grants, contacts)
    requires i < j < |contacts| && SameCustomer(contacts, i, j) && contacts[i].contactedAt > after
    ensures i in Where(grants[..j], (r: GrantRecord) => PlannedOrMade(r, grants[j].customerId, after))
  {
    assert ContactOf(cfg, contacts[i], grants[i]) && ContactOf(cfg, contacts[j], grants[j]);
    assert grants[..j][i] == grants[i];
  }

  lemma EarlierIsADayBefore(cfg: RunSetup, grants: seq<GrantRecord>, contacts: seq<Contact>, i: nat, j: nat)
    requires |grants| == |contacts| && ContactsMatch(cfg, grants, contacts) && AllSpaced(grants)
    requires i < j < |contacts| && SameCustomer(contacts, i, j)
    ensures contacts[j].contactedAt - contacts[i].contactedAt >= 24 * HOUR
  {
    assert ContactOf(cfg, contacts[j], grants[j]) && SpacedGrant(grants, j);
    var after := contacts[j].contactedAt - DAY;
    CountSinceIs(grants[..j], grants[j].customerId, after);
    if contacts[i].contactedAt > after {
      EarlierIsCounted(cfg, grants, contacts, i, j, after);
    }
  }

  lemma FirstIsAWeekBefore(cfg: RunSetup, grants: seq<GrantRecord>, contacts: seq<Contact>, i: nat, j: nat, k: nat)
    requires |grants| == |contacts| && ContactsMatch(cfg, grants, contacts) && AllSpaced(grants)
    requires i < j < k < |contacts| && SameCustomer(contacts, i, j) && SameCustomer(contacts, j, k)
    ensures contacts[k].contactedAt - contacts[i].contactedAt >= 7 * 24 * HOUR
  {
    assert ContactOf(cfg, contacts[k], grants[k]) && SpacedGrant(grants, k);
    var after := contacts[k].contactedAt - 7 * DAY;
    EarlierIsADayBefore(cfg, grants, contacts, i, j);
    CountSinceIs(grants[..k], grants[k].customerId, after);
    if contacts[i].contactedAt > after {
      EarlierIsCounted(cfg, grants, contacts, i, k, after);
      EarlierIsCounted(cfg, grants, contacts, j, k, after);
      TwoMembers(Where(grants[..k], (r: GrantRecord) => PlannedOrMade(r, grants[k].customerId, after)), i, j);
    }
  }

  lemma TwoMembers(s: set<nat>, i: nat, j: nat)
    requires i in s && j in s && i != j
    ensures |s| >= 2
  {
    assert |s - {i}| >= 1 by {
      assert j in s - {i};
    }
  }

  lemma InStepKeepApart(cfg: RunSetup, grants: seq<GrantRecord>, contacts: seq<Contact>)
    requires |grants| == |contacts| && ContactsMatch(cfg, grants, contacts) && AllSpaced(grants)
    ensures KeepApart(contacts)
  {
    hide ContactsMatch, AllSpaced, SameCustomer;
    forall i: nat, j: nat | i < j < |contacts| && SameCustomer(contacts, i, j)
      ensures contacts[j].contactedAt - contacts[i].contactedAt >= 24 * HOUR
    {
      EarlierIsADayBefore(cfg, grants, contacts, i, j);
    }
    forall i: nat, j: nat, k: nat
      | i < j < k < |contacts| && SameCustomer(contacts, i, j) && SameCustomer(contacts, j, k)
      ensures contacts[k].contactedAt - contacts[i].contactedAt >= 7 * 24 * HOUR
    {
      FirstIsAWeekBefore(cfg, grants, contacts, i, j, k);
    }
  }

  lemma InStepAreProper(cfg: RunSetup, grants: seq<GrantRecord>, contacts: seq<Contact>, k: Contact)
    requires ContactsMatch(cfg, grants, contacts) && k in contacts
    ensures ProperContact(cfg, k)
  {
    var i :| 0 <= i < |contacts| && contacts[i] == k;
    assert Permitted(cfg, contacts[i]);
    PermittedIsProper(cfg, k);
  }

  /**
   * The rules of contact over every run: each contact is made by day, over a channel the customer has
   * not opted out of and without an incentive where something is disputed; no customer hears twice
   * within a day, or three times within seven.
   */
  lemma EveryRunKeepsTheRules(cfg: RunSetup, oracle: Oracle, actions: seq<Action>)
    requires ValidSetup(cfg, actions)
    ensures RunLoop(cfg, oracle, actions).Ok?
    ensures var contacts := RunLoop(cfg, oracle, actions).value.contacts;
            KeepApart(contacts) && forall k :: k in contacts ==> ProperContact(cfg, k)
  {
    RunsEndInInvariant(cfg, oracle, actions);
    var run := RunLoop(cfg, oracle, actions).value;
    InStepKeepApart(cfg, run.tables.grants, run.contacts);
    hide *;
    forall k | k in run.contacts ensures ProperContact(cfg, k) {
      InStepAreProper(cfg, run.tables.grants, run.contacts, k);
    }
  }
}
