/**
 * Every interleaving of issuance transactions amounts to issuing one after another: what is committed
 * is the sequential result of the calls that committed, and every answer given is the sequential
 * answer at some moment of the call.
 */
module ConcurrencySafety {
  import opened Clock
  import opened ConcurrentIssuance
  import opened Contracts
  import opened Ledger
  import opened SqlStore
  import opened Wrappers

  // ---- Databases the racers can meet ----

  /** Joined to a request, one grant per request, one active claim per customer and window. */
  ghost predicate DbSafe(d: Db) {
    && (forall i :: 0 <= i < |d.grants| ==> d.grants[i].requestId in d.requests)
    && (forall i, j :: 0 <= i < j < |d.grants| ==> d.grants[i].requestId != d.grants[j].requestId)
    && (forall i, j :: 0 <= i < j < |d.claims| ==> !BothActive(d.claims[i], d.claims[j]))
  }

  ghost predicate BothActive(a: Claim, b: Claim) {
    a.customerId == b.customerId && a.windowId == b.windowId && CapacityConsuming(a.state) && CapacityConsuming(b.state)
  }

  /** A request identifier stands for one request, made for the candidate's own customer. */
  ghost predicate RequestsMatch(race: Race, d: Db) {
    forall p :: p in race.tasks ==>
      var r := race.tasks[p].candidate.request;
      r.customerId == race.tasks[p].Customer() && (r.requestId in d.requests ==> d.requests[r.requestId] == r)
  }

  ghost predicate ValidRace(race: Race) {
    && Lawful(race) && DbSafe(race.initial) && RequestsMatch(race, race.initial)
    && (forall p, q :: p in race.tasks && q in race.tasks && race.tasks[p].Request() == race.tasks[q].Request() ==>
                         race.tasks[p].candidate.request == race.tasks[q].candidate.request)
  }

  /** What a new grant adds to the database, whatever its amount. */
  datatype Addition = Addition(row: GrantRow, claim: Claim, merchant: Pool, customer: Pool)

  ghost function Added(d: Db, task: Task, a: Addition): Db {
    WithRequest(d, task.candidate.request).(
      grants := d.grants + [a.row], claims := d.claims + [a.claim],
      budgetWindows := d.budgetWindows[task.Window() := a.merchant],
      customerMargins := d.customerMargins[(task.Customer(), task.Window()) := a.customer])
  }

  ghost predicate AdditionFor(task: Task, a: Addition) {
    && a.row.requestId == task.Request()
    && a.claim.customerId == task.Customer() && a.claim.windowId == task.Window() && CapacityConsuming(a.claim.state)
  }

  ghost predicate IsNew(race: Race, d: Db, task: Task) {
    FindGrantRow(d.grants, task.Request()).None? && race.issue(d, task).0.GrantIssued?
  }

  /** Issuance adds a grant to a free slot, for a request without one, or changes nothing. */
  ghost predicate AddsOrNothing(race: Race, d: Db, task: Task) {
    if IsNew(race, d, task)
    then !SlotTaken(d, task.Customer(), task.Window())
      && exists a :: AdditionFor(task, a) && race.issue(d, task).1 == Added(d, task, a)
    else race.issue(d, task).1 == d
  }

  ghost predicate Idempotent(race: Race, d: Db, task: Task) {
    var found := FindGrantRow(d.grants, task.Request());
    found.Some? ==> race.issue(d, task) == (GrantIssued(d.grants[found.value].grant), d)
  }

  /** If nothing issuance asks about differs, committing the snapshot's rows is issuing on the present database. */
  ghost predicate CommitsAlike(race: Race, d: Db, d': Db, task: Task) {
    DbSafe(d) && DbSafe(d') && SameFor(race, d, d', task) && FindGrantRow(d.grants, task.Request()).None? ==>
      && race.issue(d', task).0 == race.issue(d, task).0
      && (race.issue(d, task).0.GrantIssued? ==> race.writes(d', d, task) == race.issue(d', task).1)
  }

  /** All that the protocol needs to know of what one call does. */
  ghost predicate Lawful(race: Race) {
    && (forall d, task :: AddsOrNothing(race, d, task))
    && (forall d, task :: Idempotent(race, d, task))
    && (forall d, d', task :: CommitsAlike(race, d, d', task))
  }

  lemma IssueAdds(race: Race, d: Db, p: Pid) returns (a: Addition)
    requires p in race.tasks && Lawful(race)
    ensures var task := race.tasks[p];
            && (IsNew(race, d, task) ==> AdditionFor(task, a) && IssueFor(race, d, p).1 == Added(d, task, a)
                                         && !SlotTaken(d, task.Customer(), task.Window()))
            && (!IsNew(race, d, task) ==> IssueFor(race, d, p).1 == d)
  {
    var task := race.tasks[p];
    assert AddsOrNothing(race, d, task);
    if IsNew(race, d, task) {
      a :| AdditionFor(task, a) && race.issue(d, task).1 == Added(d, task, a);
    } else {
      a := *;
    }
  }

  lemma AdditionKeepsSafe(race: Race, d: Db, p: Pid, a: Addition)
    requires ValidRace(race) && p in race.tasks && DbSafe(d) && RequestsMatch(race, d) && AdditionFor(race.tasks[p], a)
    requires FindGrantRow(d.grants, race.tasks[p].Request()).None?
             && !SlotTaken(d, race.tasks[p].Customer(), race.tasks[p].Window())
    ensures DbSafe(Added(d, race.tasks[p], a)) && RequestsMatch(race, Added(d, race.tasks[p], a))
  {
    forall i | 0 <= i < |d.claims| ensures !BothActive(d.claims[i], a.claim) {
      assert !IsActiveClaim(d.claims[i], race.tasks[p].Customer(), race.tasks[p].Window());
    }
  }

  lemma IssueKeepsSafe(race: Race, d: Db, p: Pid)
    requires ValidRace(race) && p in race.tasks && DbSafe(d) && RequestsMatch(race, d)
    ensures DbSafe(IssueFor(race, d, p).1) && RequestsMatch(race, IssueFor(race, d, p).1)
  {
    var a := IssueAdds(race, d, p);
    if IssueFor(race, d, p).1 != d {
      AdditionKeepsSafe(race, d, p, a);
    }
  }

  lemma {:induction false} ReplayIsSafe(race: Race, pids: seq<Pid>)
    requires ValidRace(race) && Known(race, pids)
    ensures DbSafe(Replay(race, pids)) && RequestsMatch(race, Replay(race, pids))
  {
    if pids != [] {
      ReplayIsSafe(race, pids[..|pids| - 1]);
      IssueKeepsSafe(race, Replay(race, pids[..|pids| - 1]), pids[|pids| - 1]);
    }
  }

  // ---- What a call cannot notice ----

  /** The customer's pool, counts, slot and request look the same in both databases. */
  ghost predicate SameOwn(race: Race, d: Db, d': Db, task: Task) {
    var c := task.candidate;
    && CustomerRow(d', race.scope, c.customerId, c.windowId) == CustomerRow(d, race.scope, c.customerId, c.windowId)
    && (forall cutoff :: CountActiveSince(d'.requests, d'.grants, c.customerId, cutoff)
                         == CountActiveSince(d.requests, d.grants, c.customerId, cutoff))
    && (SlotTaken(d', c.customerId, c.windowId) <==> SlotTaken(d, c.customerId, c.windowId))
    && (FindGrantRow(d'.grants, task.Request()).Some? <==> FindGrantRow(d.grants, task.Request()).Some?)
  }

  /** Everything issuance asks about for `task` is the same in both databases. */
  ghost predicate SameFor(race: Race, d: Db, d': Db, task: Task) {
    MerchantRow(d', task.Window()) == MerchantRow(d, task.Window()) && SameOwn(race, d, d', task)
  }

  /** A new request changes no count: every grant was joined already. */
  lemma {:induction false} CountIgnoresNewRequest(requests: map<RequestId, GrantRequest>,
                                                  more: map<RequestId, GrantRequest>, grants: seq<GrantRow>,
                                                  customer: CustomerId, cutoff: Instant)
    requires forall i :: 0 <= i < |grants| ==> grants[i].requestId in requests
    requires forall id :: id in requests ==> id in more && more[id] == requests[id]
    ensures CountActiveSince(more, grants, customer, cutoff) == CountActiveSince(requests, grants, customer, cutoff)
  {
    if grants != [] {
      CountIgnoresNewRequest(requests, more, grants[..|grants| - 1], customer, cutoff);
    }
  }

  lemma CountAppend(requests: map<RequestId, GrantRequest>, grants: seq<GrantRow>, row: GrantRow, customer: CustomerId,
                    cutoff: Instant)
    ensures CountActiveSince(requests, grants + [row], customer, cutoff)
            == CountActiveSince(requests, grants, customer, cutoff)
               + (if row.requestId in requests && requests[row.requestId].customerId == customer
                     && CapacityConsuming(row.grant.state) && row.grant.sendAfter > cutoff then 1 else 0)
  {
    assert (grants + [row])[..|grants|] == grants;
  }

  lemma FindAppend(grants: seq<GrantRow>, row: GrantRow, id: RequestId)
    requires row.requestId != id
    ensures FindGrantRow(grants + [row], id) == FindGrantRow(grants, id)
  {
    assert (grants + [row])[..|grants|] == grants;
  }

  lemma OthersCountAlike(d: Db, q: Task, a: Addition, customer: CustomerId, cutoff: Instant)
    requires DbSafe(d) && AdditionFor(q, a) && q.Customer() != customer
             && q.candidate.request.customerId == q.Customer()
    requires q.Request() in d.requests ==> d.requests[q.Request()] == q.candidate.request
    ensures CountActiveSince(Added(d, q, a).requests, Added(d, q, a).grants, customer, cutoff)
            == CountActiveSince(d.requests, d.grants, customer, cutoff)
  {
    CountIgnoresNewRequest(d.requests, Added(d, q, a).requests, d.grants, customer, cutoff);
    CountAppend(Added(d, q, a).requests, d.grants, a.row, customer, cutoff);
  }

  lemma OthersClaimAlike(d: Db, q: Task, a: Addition, customer: CustomerId, w: Window)
    requires AdditionFor(q, a) && q.Customer() != customer
    ensures SlotTaken(Added(d, q, a), customer, w) <==> SlotTaken(d, customer, w)
  {
    var d' := Added(d, q, a);
    if SlotTaken(d, customer, w) {
      var i :| 0 <= i < |d.claims| && IsActiveClaim(d.claims[i], customer, w);
      assert d'.claims[i] == d.claims[i];
    }
    if SlotTaken(d', customer, w) {
      var i :| 0 <= i < |d'.claims| && IsActiveClaim(d'.claims[i], customer, w);
      assert i < |d.claims| ==> d.claims[i] == d'.claims[i];
    }
  }

  /** Issuing for another customer and request leaves everything of one's own as it was. */
  lemma OthersLeaveOwn(race: Race, d: Db, q: Pid, task: Task)
    requires ValidRace(race) && q in race.tasks && DbSafe(d) && RequestsMatch(race, d)
    requires race.tasks[q].Customer() != task.Customer() && race.tasks[q].Request() != task.Request()
    ensures SameOwn(race, d, IssueFor(race, d, q).1, task)
  {
    var other := race.tasks[q];
    var a := IssueAdds(race, d, q);
    if IssueFor(race, d, q).1 != d {
      forall cutoff
        ensures CountActiveSince(Added(d, other, a).requests, Added(d, other, a).grants, task.Customer(), cutoff)
                            == CountActiveSince(d.requests, d.grants, task.Customer(), cutoff)
      {
        OthersCountAlike(d, other, a, task.Customer(), cutoff);
      }
      OthersClaimAlike(d, other, a, task.Customer(), task.Window());
      FindAppend(d.grants, a.row, task.Request());
    }
  }

  /** If it is in another window as well, it goes unnoticed. */
  lemma OthersGoUnnoticed(race: Race, d: Db, q: Pid, task: Task)
    requires ValidRace(race) && q in race.tasks && DbSafe(d) && RequestsMatch(race, d)
    requires race.tasks[q].Window() != task.Window() && race.tasks[q].Customer() != task.Customer()
    requires race.tasks[q].Request() != task.Request()
    ensures SameFor(race, d, IssueFor(race, d, q).1, task)
  {
    OthersLeaveOwn(race, d, q, task);
    hide SameOwn;
    var a := IssueAdds(race, d, q);
  }

  lemma SameForTransitive(race: Race, a: Db, b: Db, c: Db, task: Task)
    requires SameFor(race, a, b, task) && SameFor(race, b, c, task)
    ensures SameFor(race, a, c, task)
  {
  }

  lemma EarlierUnnoticed(race: Race, pids: seq<Pid>, since: nat, task: Task)
    requires Known(race, pids) && since < |pids|
    requires !Touches(race, pids[since..], task.Window()) && !Conflicts(race, pids[since..], task)
    ensures var n := |pids| - 1;
            && !Touches(race, pids[..n][since..], task.Window()) && !Conflicts(race, pids[..n][since..], task)
            && race.tasks[pids[n]].Window() != task.Window() && race.tasks[pids[n]].Customer() != task.Customer()
            && race.tasks[pids[n]].Request() != task.Request()
  {
    var n := |pids| - 1;
    assert forall i :: 0 <= i < n - since ==> pids[..n][since..][i] == pids[since..][i];
    assert pids[since..][n - since] == pids[n];
  }

  /** Nor does any number of such calls. */
  lemma {:induction false} SnapshotStillHolds(race: Race, pids: seq<Pid>, since: nat, task: Task)
    requires ValidRace(race) && Known(race, pids) && since <= |pids|
    requires !Touches(race, pids[since..], task.Window()) && !Conflicts(race, pids[since..], task)
    ensures SameFor(race, Replay(race, pids[..since]), Replay(race, pids), task)
    decreases |pids|
  {
    if since == |pids| {
      assert pids[..since] == pids;
    } else {
      var n := |pids| - 1;
      EarlierUnnoticed(race, pids, since, task);
      assert pids[..n][..since] == pids[..since];
      SnapshotStillHolds(race, pids[..n], since, task);
      ReplayIsSafe(race, pids[..n]);
      OthersGoUnnoticed(race, Replay(race, pids[..n]), pids[n], task);
      SameForTransitive(race, Replay(race, pids[..since]), Replay(race, pids[..n]), Replay(race, pids), task);
    }
  }

  // ---- The relational issuer obeys these laws ----

  lemma SqlAddsOrNothing(race: Race, d: Db, task: Task)
    requires race.issue(d, task) == SqlIssue(d, race.scope, task.candidate, task.bps, task.decisionAt)
    ensures AddsOrNothing(race, d, task)
  {
    var c, d1 := task.candidate, WithRequest(d, task.candidate.request);
    var ceiling := SqlCeiling(d1, race.scope, c, task.bps);
    var grant := NewGrant(c, ceiling);
    var a := Addition(GrantRow(c.request.requestId, grant, c.windowId),
                      Claim(grant.grantId, c.customerId, c.windowId, Reserved, task.decisionAt, None),
                      Reserve(MerchantRow(d1, c.windowId), ceiling),
                      Reserve(CustomerRow(d1, race.scope, c.customerId, c.windowId), ceiling));
    if IsNew(race, d, task) {
      assert AdditionFor(task, a) && race.issue(d, task).1 == Added(d, task, a);
    }
  }

  lemma RequestChangesNothing(d: Db, request: GrantRequest, scope: Scope, c: Candidate, at: Instant)
    requires DbSafe(d)
    ensures var d1 := WithRequest(d, request);
            && SqlRefusal(d1, scope, c, at) == SqlRefusal(d, scope, c, at)
            && MerchantRow(d1, c.windowId) == MerchantRow(d, c.windowId)
            && CustomerRow(d1, scope, c.customerId, c.windowId) == CustomerRow(d, scope, c.customerId, c.windowId)
  {
    var d1 := WithRequest(d, request);
    CountIgnoresNewRequest(d.requests, d1.requests, d.grants, c.customerId, at - DAY);
    CountIgnoresNewRequest(d.requests, d1.requests, d.grants, c.customerId, at - 7 * DAY);
  }

  lemma SqlCommitsAlike(race: Race, d: Db, d': Db, task: Task)
    requires race.issue(d, task) == SqlIssue(d, race.scope, task.candidate, task.bps, task.decisionAt)
    requires race.issue(d', task) == SqlIssue(d', race.scope, task.candidate, task.bps, task.decisionAt)
    requires race.writes(d', d, task) == CommitWrites(race.scope, d', d, task)
    ensures CommitsAlike(race, d, d', task)
  {
    if DbSafe(d) && DbSafe(d') && SameFor(race, d, d', task) {
      RequestChangesNothing(d, task.candidate.request, race.scope, task.candidate, task.decisionAt);
      RequestChangesNothing(d', task.candidate.request, race.scope, task.candidate, task.decisionAt);
    }
  }

  /** The transaction of the relational store is such an issuer, whatever the calls and the database. */
  lemma SqlIsLawful(tasks: map<Pid, Task>, scope: Scope, initial: Db)
    ensures Lawful(SqlRace(tasks, scope, initial))
  {
    var race := SqlRace(tasks, scope, initial);
    forall d, task ensures AddsOrNothing(race, d, task) {
      SqlAddsOrNothing(race, d, task);
    }
    forall d, d', task ensures CommitsAlike(race, d, d', task) {
      SqlCommitsAlike(race, d, d', task);
    }
  }

  // ---- The invariant ----

  ghost predicate TxnInv(race: Race, s: System, p: Pid)
    requires Known(race, s.commits) && p in race.tasks
  {
    var task, txn := race.tasks[p], TxnOf(s, p);
    if txn.Ready? then txn.attempt < MAX_SERIALIZATION_RETRIES
    else if txn.Finished? then
      && txn.since <= |s.commits|
      && (if txn.exhausted then txn.result == BudgetDenial(ContactSlotTaken, task.NextEligible())
          else txn.result == IssueFor(race, Replay(race, s.commits[..txn.since]), p).0 && Earned(race, s, p, txn))
    else
      && txn.attempt < MAX_SERIALIZATION_RETRIES && txn.since <= |s.commits|
      && FindGrantRow(Replay(race, s.commits[..txn.since]).grants, task.Request()).None?
      && (!txn.Began? ==> HoldsMerchant(s, p, task) && !Touches(race, s.commits[txn.since..], task.Window()))
      && (txn.BothLocked? || txn.Written? ==> HoldsCustomer(s, p, task))
      && (txn.Written? ==> IssueFor(race, Replay(race, s.commits[..txn.since]), p).0.GrantIssued?)
  }

  /** A grant is either the one the call itself committed, or one its request already had. */
  ghost predicate Earned(race: Race, s: System, p: Pid, txn: Txn)
    requires Known(race, s.commits) && p in race.tasks && txn.Finished? && txn.since <= |s.commits|
  {
    txn.result.GrantIssued? ==>
      (txn.since < |s.commits| && s.commits[txn.since] == p)
      || FindGrantRow(Replay(race, s.commits[..txn.since]).grants, race.tasks[p].Request()).Some?
  }

  ghost predicate HoldsMerchant(s: System, p: Pid, task: Task) {
    task.Window() in s.merchantLocks && s.merchantLocks[task.Window()] == p
  }

  ghost predicate HoldsCustomer(s: System, p: Pid, task: Task) {
    (task.Customer(), task.Window()) in s.customerLocks && s.customerLocks[(task.Customer(), task.Window())] == p
  }

  ghost predicate LocksInv(race: Race, s: System) {
    && (forall w :: w in s.merchantLocks ==>
          var p := s.merchantLocks[w];
          p in race.tasks && race.tasks[p].Window() == w
          && (TxnOf(s, p).MerchantLocked? || TxnOf(s, p).BothLocked? || TxnOf(s, p).Written?))
    && (forall k :: k in s.customerLocks ==>
          var p := s.customerLocks[k];
          p in race.tasks && (race.tasks[p].Customer(), race.tasks[p].Window()) == k
          && (TxnOf(s, p).BothLocked? || TxnOf(s, p).Written?))
  }

  ghost predicate CommitsInv(race: Race, s: System)
    requires Known(race, s.commits)
  {
    && s.db == Replay(race, s.commits)
    && (forall i :: 0 <= i < |s.commits| ==> Won(race, s, i))
  }

  /** The i-th to commit did so with a new grant, and that is its answer. */
  ghost predicate Won(race: Race, s: System, i: nat)
    requires Known(race, s.commits) && i < |s.commits|
  {
    var p := s.commits[i];
    && TxnOf(s, p).Finished? && !TxnOf(s, p).exhausted && TxnOf(s, p).since == i && TxnOf(s, p).result.GrantIssued?
    && FindGrantRow(Replay(race, s.commits[..i]).grants, race.tasks[p].Request()).None?
  }

  ghost predicate SystemInv(race: Race, s: System) {
    && Known(race, s.commits) && CommitsInv(race, s) && LocksInv(race, s)
    && (forall p :: p in race.tasks ==> TxnInv(race, s, p))
  }

  // ---- Every step keeps it ----

  /** What a step of `p` may do around another transaction without that one noticing. */
  ghost predicate Undisturbed(race: Race, s: System, s': System, q: Pid)
    requires Known(race, s.commits) && Known(race, s'.commits) && q in race.tasks
  {
    && TxnOf(s', q) == TxnOf(s, q) && s.commits <= s'.commits
    && (HoldsMerchant(s, q, race.tasks[q]) ==>
          HoldsMerchant(s', q, race.tasks[q]) && !Touches(race, s'.commits[|s.commits|..], race.tasks[q].Window()))
    && (HoldsCustomer(s, q, race.tasks[q]) ==> HoldsCustomer(s', q, race.tasks[q]))
  }

  lemma TouchesInTwo(race: Race, pids: seq<Pid>, more: seq<Pid>, since: nat, w: Window)
    requires Known(race, pids) && Known(race, more) && pids <= more && since <= |pids|
    ensures Touches(race, more[since..], w) <==> Touches(race, pids[since..], w) || Touches(race, more[|pids|..], w)
  {
    var a, b, all := pids[since..], more[|pids|..], more[since..];
    assert all == a + b;
    if Touches(race, a, w) {
      var i :| 0 <= i < |a| && race.tasks[a[i]].Window() == w;
      assert all[i] == a[i];
    }
    if Touches(race, b, w) {
      var i :| 0 <= i < |b| && race.tasks[b[i]].Window() == w;
      assert all[|a| + i] == b[i];
    }
    if Touches(race, all, w) {
      var i :| 0 <= i < |all| && race.tasks[all[i]].Window() == w;
      assert i < |a| ==> a[i] == all[i];
      assert i >= |a| ==> b[i - |a|] == all[i];
    }
  }

  lemma OthersKeep(race: Race, s: System, s': System, q: Pid)
    requires Known(race, s.commits) && Known(race, s'.commits) && q in race.tasks
    requires TxnInv(race, s, q) && Undisturbed(race, s, s', q)
    ensures TxnInv(race, s', q)
  {
    var txn := TxnOf(s, q);
    if !txn.Ready? {
      assert s'.commits[..txn.since] == s.commits[..txn.since];
      TouchesInTwo(race, s.commits, s'.commits, txn.since, race.tasks[q].Window());
    }
  }

  lemma WonStays(race: Race, s: System, s': System, p: Pid, i: nat)
    requires Known(race, s.commits) && Known(race, s'.commits) && s.commits <= s'.commits && i < |s.commits|
             && Won(race, s, i)
    requires !TxnOf(s, p).Finished? && forall q :: q != p ==> TxnOf(s', q) == TxnOf(s, q)
    ensures Won(race, s', i)
  {
    assert s'.commits[..i] == s.commits[..i];
  }

  /** Locks are dropped or kept, never handed to anybody. */
  lemma UnlockedKeepsOthers(locks: map<Window, Pid>, own: map<(CustomerId, Window), Pid>, p: Pid)
    ensures forall w :: w in Unlocked(locks, p) <==> w in locks && locks[w] != p
    ensures forall k :: k in Unlocked(own, p) <==> k in own && own[k] != p
  {
  }

  /** A transaction that ends without committing disturbs nobody. */
  lemma ReleaseKeeps(race: Race, s: System, p: Pid, txn: Txn)
    requires SystemInv(race, s) && p in race.tasks && !TxnOf(s, p).Finished?
    requires TxnInv(race, Release(s, p, txn), p) && (txn.Ready? || txn.Finished?)
    ensures SystemInv(race, Release(s, p, txn))
  {
    var s' := Release(s, p, txn);
    UnlockedKeepsOthers(s.merchantLocks, s.customerLocks, p);
    forall q | q in race.tasks && q != p ensures TxnInv(race, s', q) {
      assert s'.commits[|s.commits|..] == [];
      OthersKeep(race, s, s', q);
    }
    forall i | 0 <= i < |s.commits| ensures Won(race, s', i) {
      WonStays(race, s, s', p, i);
    }
  }

  lemma RetryKeeps(race: Race, s: System, p: Pid)
    requires SystemInv(race, s) && p in race.tasks && !TxnOf(s, p).Finished?
             && TxnOf(s, p).attempt < MAX_SERIALIZATION_RETRIES
    ensures SystemInv(race, Retry(s, p, race.tasks[p], TxnOf(s, p).attempt))
  {
    var task, k := race.tasks[p], TxnOf(s, p).attempt;
    ReleaseKeeps(race, s, p, if k + 1 < MAX_SERIALIZATION_RETRIES then Ready(k + 1)
                             else Finished(BudgetDenial(ContactSlotTaken, task.NextEligible()), |s.commits|, true));
  }

  /** A step that only moves `p` on, possibly taking a free lock. */
  lemma AdvanceKeeps(race: Race, s: System, s': System, p: Pid)
    requires SystemInv(race, s) && p in race.tasks && !TxnOf(s, p).Finished?
    requires s'.commits == s.commits && s'.db == s.db && TxnInv(race, s', p) && LocksInv(race, s')
    requires forall q :: q != p ==> TxnOf(s', q) == TxnOf(s, q)
    requires forall w :: w in s.merchantLocks ==> w in s'.merchantLocks && s'.merchantLocks[w] == s.merchantLocks[w]
    requires forall k :: k in s.customerLocks ==> k in s'.customerLocks && s'.customerLocks[k] == s.customerLocks[k]
    ensures SystemInv(race, s')
  {
    forall q | q in race.tasks && q != p ensures TxnInv(race, s', q) {
      assert s'.commits[|s.commits|..] == [];
      OthersKeep(race, s, s', q);
    }
    forall i | 0 <= i < |s.commits| ensures Won(race, s', i) {
      WonStays(race, s, s', p, i);
    }
  }

  lemma ExistingIsTheAnswer(race: Race, d: Db, p: Pid)
    requires p in race.tasks && Lawful(race)
    ensures var found := FindGrantRow(d.grants, race.tasks[p].Request());
            found.Some? ==> IssueFor(race, d, p) == (GrantIssued(d.grants[found.value].grant), d)
  {
    assert Idempotent(race, d, race.tasks[p]);
  }

  lemma BegunKeepsItsPromises(race: Race, s: System, p: Pid)
    requires ValidRace(race) && SystemInv(race, s) && p in race.tasks && TxnOf(s, p).Ready?
    ensures TxnInv(race, Next(race, s, Begin(p)), p)
  {
    assert TxnInv(race, s, p);
    assert s.commits[..|s.commits|] == s.commits;
    ExistingIsTheAnswer(race, s.db, p);
  }

  lemma BeginKeeps(race: Race, s: System, p: Pid)
    requires ValidRace(race) && SystemInv(race, s)
    ensures SystemInv(race, Next(race, s, Begin(p)))
  {
    if p in race.tasks && TxnOf(s, p).Ready? {
      var existing := FindGrantRow(s.db.grants, race.tasks[p].Request());
      var txn := if existing.Some? then Finished(GrantIssued(s.db.grants[existing.value].grant), |s.commits|, false)
                 else Began(TxnOf(s, p).attempt, |s.commits|);
      BegunKeepsItsPromises(race, s, p);
      assert Next(race, s, Begin(p)) == Move(s, p, txn);
      MoveKeeps(race, s, p, txn);
    }
  }

  /** Moving on without taking or dropping a lock. */
  lemma MoveKeeps(race: Race, s: System, p: Pid, txn: Txn)
    requires SystemInv(race, s) && p in race.tasks && TxnInv(race, Move(s, p, txn), p)
    requires TxnOf(s, p).Ready? || (TxnOf(s, p).BothLocked? && txn.Written?)
    ensures SystemInv(race, Move(s, p, txn))
  {
    hide TxnInv, CommitsInv;
    AdvanceKeeps(race, s, Move(s, p, txn), p);
  }

  lemma LockMerchantKeeps(race: Race, s: System, p: Pid)
    requires ValidRace(race) && SystemInv(race, s)
    ensures SystemInv(race, Next(race, s, LockMerchant(p)))
  {
    if p in race.tasks && TxnOf(s, p).Began? && race.tasks[p].Window() !in s.merchantLocks {
      var task, txn := race.tasks[p], TxnOf(s, p);
      assert TxnInv(race, s, p);
      if Touches(race, s.commits[txn.since..], task.Window()) {
        RetryKeeps(race, s, p);
      } else {
        AdvanceKeeps(race, s, Next(race, s, LockMerchant(p)), p);
      }
    }
  }

  /** Nothing in the window has been committed since, so the customer's row cannot have changed either. */
  lemma LockCustomerState(race: Race, s: System, p: Pid)
    requires SystemInv(race, s) && p in race.tasks && TxnOf(s, p).MerchantLocked?
    requires (race.tasks[p].Customer(), race.tasks[p].Window()) !in s.customerLocks
    ensures var task, txn := race.tasks[p], TxnOf(s, p);
            Next(race, s, LockCustomer(p))
            == Move(s.(customerLocks := s.customerLocks[(task.Customer(), task.Window()) := p]), p,
                    BothLocked(txn.attempt, txn.since))
    ensures TxnInv(race, Next(race, s, LockCustomer(p)), p)
  {
    assert TxnInv(race, s, p);
  }

  lemma LockCustomerKeeps(race: Race, s: System, p: Pid)
    requires ValidRace(race) && SystemInv(race, s)
    ensures SystemInv(race, Next(race, s, LockCustomer(p)))
  {
    if p in race.tasks && TxnOf(s, p).MerchantLocked?
      && (race.tasks[p].Customer(), race.tasks[p].Window()) !in s.customerLocks {
      LockCustomerState(race, s, p);
      AdvanceKeeps(race, s, Next(race, s, LockCustomer(p)), p);
    }
  }

  lemma LastUntouched(race: Race, pids: seq<Pid>, since: nat, w: Window)
    requires Known(race, pids) && since < |pids| && !Touches(race, pids[since..], w)
    ensures var n := |pids| - 1;
            race.tasks[pids[n]].Window() != w && !Touches(race, pids[..n][since..], w)
              && pids[..n][..since] == pids[..since]
  {
    var n := |pids| - 1;
    assert pids[since..][n - since] == pids[n];
    assert forall i :: 0 <= i < n - since ==> pids[..n][since..][i] == pids[since..][i];
  }

  /** Under its locks a transaction's snapshot still shows the slot as it is. */
  lemma {:induction false} SlotUnchanged(race: Race, pids: seq<Pid>, since: nat, customer: CustomerId, w: Window)
    requires Lawful(race) && Known(race, pids) && since <= |pids| && !Touches(race, pids[since..], w)
    ensures SlotTaken(Replay(race, pids), customer, w) <==> SlotTaken(Replay(race, pids[..since]), customer, w)
    decreases |pids|
  {
    if since == |pids| {
      assert pids[..since] == pids;
    } else {
      var n := |pids| - 1;
      LastUntouched(race, pids, since, w);
      SlotUnchanged(race, pids[..n], since, customer, w);
      OtherWindowsClaim(race, Replay(race, pids[..n]), pids[n], customer, w);
    }
  }

  lemma OtherWindowsClaim(race: Race, d: Db, q: Pid, customer: CustomerId, w: Window)
    requires Lawful(race) && q in race.tasks && race.tasks[q].Window() != w
    ensures SlotTaken(IssueFor(race, d, q).1, customer, w) <==> SlotTaken(d, customer, w)
  {
    var a := IssueAdds(race, d, q);
    var d' := IssueFor(race, d, q).1;
    if d' != d {
      if SlotTaken(d, customer, w) {
        var i :| 0 <= i < |d.claims| && IsActiveClaim(d.claims[i], customer, w);
        assert d'.claims[i] == d.claims[i];
      }
      if SlotTaken(d', customer, w) {
        var i :| 0 <= i < |d'.claims| && IsActiveClaim(d'.claims[i], customer, w);
        assert i < |d.claims| ==> d.claims[i] == d'.claims[i];
      }
    }
  }

  /** A grant decided on the snapshot finds the slot free in the present database too. */
  lemma WriteFindsSlotFree(race: Race, s: System, p: Pid)
    requires ValidRace(race) && SystemInv(race, s) && p in race.tasks && TxnOf(s, p).BothLocked?
    requires IssueFor(race, Replay(race, s.commits[..TxnOf(s, p).since]), p).0.GrantIssued?
    ensures !SlotTaken(s.db, race.tasks[p].Customer(), race.tasks[p].Window())
  {
    var task, since := race.tasks[p], TxnOf(s, p).since;
    assert TxnInv(race, s, p);
    var a := IssueAdds(race, Replay(race, s.commits[..since]), p);
    SlotUnchanged(race, s.commits, since, task.Customer(), task.Window());
  }

  lemma WriteKeeps(race: Race, s: System, p: Pid)
    requires ValidRace(race) && SystemInv(race, s)
    ensures SystemInv(race, Next(race, s, Write(p)))
  {
    if p in race.tasks && TxnOf(s, p).BothLocked? {
      var txn := TxnOf(s, p);
      assert TxnInv(race, s, p);
      var result := IssueFor(race, Replay(race, s.commits[..txn.since]), p).0;
      if result.BudgetDenial? {
        WriteDenied(race, s, p, result);
      } else {
        WriteFindsSlotFree(race, s, p);
        WriteGranted(race, s, p);
      }
    }
  }

  lemma WriteDenied(race: Race, s: System, p: Pid, result: IssuanceResult)
    requires SystemInv(race, s) && p in race.tasks && TxnOf(s, p).BothLocked? && TxnOf(s, p).since <= |s.commits|
    requires result == IssueFor(race, Replay(race, s.commits[..TxnOf(s, p).since]), p).0 && result.BudgetDenial?
    ensures SystemInv(race, Next(race, s, Write(p)))
  {
    ReleaseKeeps(race, s, p, Finished(result, TxnOf(s, p).since, false));
  }

  lemma WriteGranted(race: Race, s: System, p: Pid)
    requires SystemInv(race, s) && p in race.tasks && TxnOf(s, p).BothLocked? && TxnOf(s, p).since <= |s.commits|
    requires IssueFor(race, Replay(race, s.commits[..TxnOf(s, p).since]), p).0.GrantIssued?
    requires !SlotTaken(s.db, race.tasks[p].Customer(), race.tasks[p].Window())
    ensures SystemInv(race, Next(race, s, Write(p)))
  {
    var txn := Written(TxnOf(s, p).attempt, TxnOf(s, p).since);
    assert TxnInv(race, s, p);
    assert Next(race, s, Write(p)) == Move(s, p, txn);
    MoveKeeps(race, s, p, txn);
  }

  // ---- Commit ----

  lemma ReplayOneMore(race: Race, pids: seq<Pid>, p: Pid)
    requires Known(race, pids) && p in race.tasks
    ensures Replay(race, pids + [p]) == IssueFor(race, Replay(race, pids), p).1
  {
    assert (pids + [p])[..|pids|] == pids;
  }

  /** Committing the rows decided on the snapshot is issuing on the database as it now is. */
  lemma CommitLinearizes(race: Race, s: System, p: Pid)
    requires ValidRace(race) && SystemInv(race, s) && p in race.tasks && TxnOf(s, p).Written?
    requires !Conflicts(race, s.commits[TxnOf(s, p).since..], race.tasks[p])
    ensures var snapshot := Replay(race, s.commits[..TxnOf(s, p).since]);
            && FindGrantRow(s.db.grants, race.tasks[p].Request()).None?
            && IssueFor(race, snapshot, p).0 == IssueFor(race, s.db, p).0
            && race.writes(s.db, snapshot, race.tasks[p]) == IssueFor(race, s.db, p).1
  {
    var since := TxnOf(s, p).since;
    assert TxnInv(race, s, p);
    SnapshotStillHolds(race, s.commits, since, race.tasks[p]);
    ReplayIsSafe(race, s.commits);
    ReplayIsSafe(race, s.commits[..since]);
    assert CommitsAlike(race, Replay(race, s.commits[..since]), s.db, race.tasks[p]);
  }

  lemma CommitKeeps(race: Race, s: System, p: Pid)
    requires ValidRace(race) && SystemInv(race, s)
    ensures SystemInv(race, Next(race, s, Commit(p)))
  {
    if p in race.tasks && TxnOf(s, p).Written? {
      assert TxnInv(race, s, p);
      assert TxnOf(s, p).since <= |s.commits| && TxnOf(s, p).attempt < MAX_SERIALIZATION_RETRIES;
      hide SystemInv, TxnInv, ValidRace, Replay, IssueFor, Conflicts, Release;
      if Conflicts(race, s.commits[TxnOf(s, p).since..], race.tasks[p]) {
        RetryKeeps(race, s, p);
      } else {
        CommittedKeeps(race, s, p);
      }
    }
  }

  /** The state a commit leaves, and why it is the sequential one. */
  lemma CommittedState(race: Race, s: System, p: Pid)
    requires ValidRace(race) && SystemInv(race, s) && p in race.tasks && TxnOf(s, p).Written?
    requires !Conflicts(race, s.commits[TxnOf(s, p).since..], race.tasks[p])
    ensures var s', n := Next(race, s, Commit(p)), |s.commits|;
            && s'.commits == s.commits + [p] && s'.db == Replay(race, s.commits + [p])
            && s'.txns == s.txns[p := Finished(IssueFor(race, s.db, p).0, n, false)]
            && s'.merchantLocks == Unlocked(s.merchantLocks, p) && s'.customerLocks == Unlocked(s.customerLocks, p)
            && IssueFor(race, s.db, p).0.GrantIssued? && FindGrantRow(s.db.grants, race.tasks[p].Request()).None?
  {
    assert TxnInv(race, s, p) && s.db == Replay(race, s.commits);
    assert TxnOf(s, p).since <= |s.commits|
           && IssueFor(race, Replay(race, s.commits[..TxnOf(s, p).since]), p).0.GrantIssued?;
    hide SystemInv, TxnInv, ValidRace, Replay, IssueFor, Conflicts;
    CommitLinearizes(race, s, p);
    ReplayOneMore(race, s.commits, p);
  }

  lemma WinnerKeepsItsPromises(race: Race, s: System, s': System, p: Pid)
    requires Known(race, s.commits) && p in race.tasks && s.db == Replay(race, s.commits)
    requires s'.commits == s.commits + [p]
             && s'.txns == s.txns[p := Finished(IssueFor(race, s.db, p).0, |s.commits|, false)]
    requires IssueFor(race, s.db, p).0.GrantIssued? && FindGrantRow(s.db.grants, race.tasks[p].Request()).None?
    ensures TxnInv(race, s', p) && Won(race, s', |s.commits|)
  {
    assert s'.commits[..|s.commits|] == s.commits;
  }

  lemma CommittedKeeps(race: Race, s: System, p: Pid)
    requires ValidRace(race) && SystemInv(race, s) && p in race.tasks && TxnOf(s, p).Written?
    requires !Conflicts(race, s.commits[TxnOf(s, p).since..], race.tasks[p])
    ensures SystemInv(race, Next(race, s, Commit(p)))
  {
    CommittedState(race, s, p);
    AfterCommit(race, s, Next(race, s, Commit(p)), p);
  }

  /** The locks of a finished transaction are gone; everybody else's are where they were. */
  lemma LocksAfterCommit(race: Race, s: System, s': System, p: Pid)
    requires LocksInv(race, s)
    requires s'.merchantLocks == Unlocked(s.merchantLocks, p) && s'.customerLocks == Unlocked(s.customerLocks, p)
    requires forall q :: q != p ==> TxnOf(s', q) == TxnOf(s, q)
    ensures LocksInv(race, s')
    ensures forall q :: q in race.tasks && q != p ==>
              && (HoldsMerchant(s, q, race.tasks[q]) ==> HoldsMerchant(s', q, race.tasks[q]))
              && (HoldsCustomer(s, q, race.tasks[q]) ==> HoldsCustomer(s', q, race.tasks[q]))
  {
    UnlockedKeepsOthers(s.merchantLocks, s.customerLocks, p);
  }

  lemma OtherAfterCommit(race: Race, s: System, s': System, p: Pid, q: Pid)
    requires Known(race, s.commits) && p in race.tasks && q in race.tasks && q != p
    requires s'.commits == s.commits + [p] && TxnOf(s', q) == TxnOf(s, q) && TxnInv(race, s, q)
    requires HoldsMerchant(s, p, race.tasks[p])
    requires HoldsMerchant(s, q, race.tasks[q]) ==> HoldsMerchant(s', q, race.tasks[q])
    requires HoldsCustomer(s, q, race.tasks[q]) ==> HoldsCustomer(s', q, race.tasks[q])
    ensures TxnInv(race, s', q)
  {
    assert s'.commits[|s.commits|..] == [p];
    assert HoldsMerchant(s, q, race.tasks[q]) ==> race.tasks[q].Window() != race.tasks[p].Window();
    OthersKeep(race, s, s', q);
  }

  lemma AfterCommit(race: Race, s: System, s': System, p: Pid)
    requires SystemInv(race, s) && p in race.tasks && TxnOf(s, p).Written?
    requires s'.commits == s.commits + [p] && s'.db == Replay(race, s.commits + [p])
    requires s'.txns == s.txns[p := Finished(IssueFor(race, s.db, p).0, |s.commits|, false)]
    requires s'.merchantLocks == Unlocked(s.merchantLocks, p) && s'.customerLocks == Unlocked(s.customerLocks, p)
    requires IssueFor(race, s.db, p).0.GrantIssued? && FindGrantRow(s.db.grants, race.tasks[p].Request()).None?
    ensures SystemInv(race, s')
  {
    WinnerKeepsItsPromises(race, s, s', p);
    LocksAfterCommit(race, s, s', p);
    assert TxnInv(race, s, p);
    forall q | q in race.tasks && q != p ensures TxnInv(race, s', q) {
      OtherAfterCommit(race, s, s', p, q);
    }
    forall i | 0 <= i < |s.commits| ensures Won(race, s', i) {
      WonStays(race, s, s', p, i);
    }
  }

  lemma FailKeeps(race: Race, s: System, p: Pid)
    requires ValidRace(race) && SystemInv(race, s)
    ensures SystemInv(race, Next(race, s, Fail(p)))
  {
    if p in race.tasks && !TxnOf(s, p).Ready? && !TxnOf(s, p).Finished? {
      assert TxnInv(race, s, p);
      RetryKeeps(race, s, p);
    }
  }

  lemma StepKeeps(race: Race, s: System, step: TxnStep)
    requires ValidRace(race) && SystemInv(race, s)
    ensures SystemInv(race, Next(race, s, step))
  {
    match step
    case Begin(p) => BeginKeeps(race, s, p);
    case LockMerchant(p) => LockMerchantKeeps(race, s, p);
    case LockCustomer(p) => LockCustomerKeeps(race, s, p);
    case Write(p) => WriteKeeps(race, s, p);
    case Commit(p) => CommitKeeps(race, s, p);
    case Fail(p) => FailKeeps(race, s, p);
  }

  // ---- Every interleaving ----

  function Reach(race: Race, steps: seq<TxnStep>): (s: System)
    ensures Known(race, s.commits)
  {
    if steps == [] then Start(race) else
      var s := Reach(race, steps[..|steps| - 1]);
      var s' := Next(race, s, steps[|steps| - 1]);
      assert Known(race, s'.commits);
      s'
  }

  /**
   * However the racers are interleaved, what is committed is what issuing one after another commits:
   * at most one active claim per customer and window and one grant per request at every moment, and
   * every answer that is not a given-up retry is the sequential answer at some moment of the race.
   */
  lemma {:induction false} EveryInterleavingIsSequential(race: Race, steps: seq<TxnStep>)
    requires ValidRace(race)
    ensures SystemInv(race, Reach(race, steps)) && DbSafe(Reach(race, steps).db)
    ensures Reach(race, steps).db == Replay(race, Reach(race, steps).commits)
  {
    if steps == [] {
      assert race.initial == Replay(race, []);
    } else {
      EveryInterleavingIsSequential(race, steps[..|steps| - 1]);
      StepKeeps(race, Reach(race, steps[..|steps| - 1]), steps[|steps| - 1]);
    }
    ReplayIsSafe(race, Reach(race, steps).commits);
  }

  /** A denial, or giving up after five serialization failures, leaves nothing behind. */
  lemma OnlyWinnersLeaveATrace(race: Race, s: System, p: Pid)
    requires SystemInv(race, s) && p in race.tasks
    ensures p in s.commits ==> TxnOf(s, p).Finished? && TxnOf(s, p).result.GrantIssued? && !TxnOf(s, p).exhausted
    ensures multiset(s.commits)[p] <= 1
  {
    if p in s.commits {
      var i :| 0 <= i < |s.commits| && s.commits[i] == p;
      assert Won(race, s, i);
      CommitsOnce(race, s, s.commits, p, i);
    }
  }

  lemma {:induction false} CommitsOnce(race: Race, s: System, pids: seq<Pid>, p: Pid, i: nat)
    requires Known(race, s.commits) && pids <= s.commits && forall j :: 0 <= j < |s.commits| ==> Won(race, s, j)
    requires i < |s.commits| && s.commits[i] == p
    ensures multiset(pids)[p] <= if i < |pids| then 1 else 0
  {
    if pids != [] {
      var n := |pids| - 1;
      assert pids == pids[..n] + [pids[n]];
      CommitsOnce(race, s, pids[..n], p, i);
      assert Won(race, s, n) && Won(race, s, i);
    }
  }

  // ---- Retries ----

  /** An attempt that fails to serialize: it is over, to be made again or given up. */
  ghost predicate FailsToSerialize(before: Txn, after: Txn) {
    !before.Ready? && !before.Finished? && (after.Ready? || (after.Finished? && after.exhausted))
  }

  /** How often a call has failed to serialize. */
  ghost function Failures(race: Race, steps: seq<TxnStep>, p: Pid): nat {
    if steps == [] then 0 else
      var n := |steps| - 1;
      Failures(race, steps[..n], p)
      + (if FailsToSerialize(TxnOf(Reach(race, steps[..n]), p), TxnOf(Reach(race, steps), p)) then 1 else 0)
  }

  ghost predicate AttemptsAre(race: Race, txn: Txn, p: Pid, failures: nat)
    requires p in race.tasks
  {
    if txn.Finished? && txn.exhausted
    then failures == 5 && txn.result
      == BudgetDenial(ContactSlotTaken, WindowStartFor(race.tasks[p].candidate.windowId + 1))
    else failures <= 4 && (!txn.Finished? ==> txn.attempt == failures)
  }

  lemma StepCountsAttempts(race: Race, s: System, step: TxnStep, p: Pid, failures: nat)
    requires Known(race, s.commits) && p in race.tasks && AttemptsAre(race, TxnOf(s, p), p, failures)
    ensures var after := TxnOf(Next(race, s, step), p);
            AttemptsAre(race, after, p, failures + (if FailsToSerialize(TxnOf(s, p), after) then 1 else 0))
  {
    hide Touches, Conflicts, Replay, IssueFor, FindGrantRow, SlotTaken;
  }

  /** A call is given up after exactly five serialization failures, as if its slot were taken, and never sooner. */
  lemma {:induction false} GivenUpAfterFive(race: Race, steps: seq<TxnStep>, p: Pid)
    requires p in race.tasks
    ensures AttemptsAre(race, TxnOf(Reach(race, steps), p), p, Failures(race, steps, p))
  {
    if steps != [] {
      var n := |steps| - 1;
      GivenUpAfterFive(race, steps[..n], p);
      StepCountsAttempts(race, Reach(race, steps[..n]), steps[n], p, Failures(race, steps[..n], p));
      hide Next, AttemptsAre, FailsToSerialize;
    }
  }

  // ---- No deadlock ----

  /** A transaction that waits for nothing can move on, other than by failing. */
  ghost predicate CanMove(race: Race, s: System)
    requires Known(race, s.commits)
  {
    exists step: TxnStep :: !step.Fail? && Next(race, s, step) != s
  }

  /** Only the holder of the merchant's row can hold a customer's row of that window. */
  lemma CustomerLocksFollow(race: Race, s: System, p: Pid)
    requires SystemInv(race, s) && p in race.tasks && TxnOf(s, p).MerchantLocked?
    ensures (race.tasks[p].Customer(), race.tasks[p].Window()) !in s.customerLocks
  {
    assert TxnInv(race, s, p);
    forall k | k in s.customerLocks ensures k != (race.tasks[p].Customer(), race.tasks[p].Window()) {
      assert TxnInv(race, s, s.customerLocks[k]);
    }
  }

  lemma MerchantHolderCanMove(race: Race, s: System, p: Pid)
    requires SystemInv(race, s) && p in race.tasks && TxnOf(s, p).MerchantLocked?
    ensures CanMove(race, s)
  {
    assert TxnInv(race, s, p);
    CustomerLocksFollow(race, s, p);
    LockCustomerState(race, s, p);
    assert TxnOf(Next(race, s, LockCustomer(p)), p).BothLocked?;
  }

  /** Whoever holds a merchant's row can move on: the customer's row it wants next is free. */
  lemma HolderCanMove(race: Race, s: System, p: Pid)
    requires SystemInv(race, s) && p in race.tasks
    requires TxnOf(s, p).MerchantLocked? || TxnOf(s, p).BothLocked? || TxnOf(s, p).Written?
    ensures CanMove(race, s)
  {
    if TxnOf(s, p).MerchantLocked? {
      MerchantHolderCanMove(race, s, p);
    } else if TxnOf(s, p).BothLocked? {
      assert TxnOf(Next(race, s, Write(p)), p) != TxnOf(s, p);
    } else {
      assert TxnOf(Next(race, s, Commit(p)), p) != TxnOf(s, p);
    }
  }

  /**
   * Because everybody locks the merchant's row before the customer's, no set of transactions can wait
   * for one another: while anybody is unfinished, somebody can move on.
   */
  lemma NoDeadlock(race: Race, s: System, p: Pid)
    requires SystemInv(race, s) && p in race.tasks && !TxnOf(s, p).Finished?
    ensures CanMove(race, s)
  {
    assert TxnInv(race, s, p);
    if TxnOf(s, p).Ready? {
      assert TxnOf(Next(race, s, Begin(p)), p) != TxnOf(s, p);
    } else if TxnOf(s, p).Began? {
      if race.tasks[p].Window() in s.merchantLocks {
        HolderCanMove(race, s, s.merchantLocks[race.tasks[p].Window()]);
      } else {
        assert TxnOf(Next(race, s, LockMerchant(p)), p) != TxnOf(s, p);
      }
    } else {
      HolderCanMove(race, s, p);
    }
  }
}
