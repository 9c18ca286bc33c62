/**
 * Racing for one contact slot (sampark/budget/issuance.py), beside any other issuances: never more
 * than one winner, and exactly one once anybody has an answer, if the rest of the traffic leaves the
 * racers funded and below their caps.
 */
module SlotRace {
  import opened Clock
  import opened ConcurrencySafety
  import opened ConcurrentIssuance
  import opened Contracts
  import opened Ledger
  import opened Margin
  import opened SqlStore

  predicate Wants(race: Race, p: Pid, customer: CustomerId, w: Window) {
    p in race.tasks && race.tasks[p].Customer() == customer && race.tasks[p].Window() == w
  }

  // ---- At most one winner, whoever else there is ----

  /** A claim once made stays: issuance only adds. */
  lemma IssueKeepsTaken(race: Race, d: Db, q: Pid, customer: CustomerId, w: Window)
    requires Lawful(race) && q in race.tasks && SlotTaken(d, customer, w)
    ensures SlotTaken(IssueFor(race, d, q).1, customer, w)
  {
    var a := IssueAdds(race, d, q);
    var d' := IssueFor(race, d, q).1;
    var i :| 0 <= i < |d.claims| && IsActiveClaim(d.claims[i], customer, w);
    assert d'.claims[i] == d.claims[i];
  }

  lemma {:induction false} TakenStaysTaken(race: Race, pids: seq<Pid>, since: nat, customer: CustomerId, w: Window)
    requires Lawful(race) && Known(race, pids) && since <= |pids| && SlotTaken(Replay(race, pids[..since]), customer, w)
    ensures SlotTaken(Replay(race, pids), customer, w)
    decreases |pids|
  {
    if since == |pids| {
      assert pids[..since] == pids;
    } else {
      var n := |pids| - 1;
      assert pids[..n][..since] == pids[..since];
      TakenStaysTaken(race, pids[..n], since, customer, w);
      IssueKeepsTaken(race, Replay(race, pids[..n]), pids[n], customer, w);
    }
  }

  /** A call that is granted anew finds its slot free and takes it. */
  lemma GrantTakesSlot(race: Race, d: Db, p: Pid)
    requires Lawful(race) && p in race.tasks && IsNew(race, d, race.tasks[p])
    ensures !SlotTaken(d, race.tasks[p].Customer(), race.tasks[p].Window())
    ensures SlotTaken(IssueFor(race, d, p).1, race.tasks[p].Customer(), race.tasks[p].Window())
  {
    var a := IssueAdds(race, d, p);
    var d' := IssueFor(race, d, p).1;
    assert IsActiveClaim(d'.claims[|d.claims|], race.tasks[p].Customer(), race.tasks[p].Window());
  }

  /** The i-th to commit found its slot free and has held it since. */
  lemma CommitTakesSlot(race: Race, s: System, i: nat, n: nat)
    requires ValidRace(race) && SystemInv(race, s) && i < n <= |s.commits|
    ensures var task := race.tasks[s.commits[i]];
            && IsNew(race, Replay(race, s.commits[..i]), task)
            && !SlotTaken(Replay(race, s.commits[..i]), task.Customer(), task.Window())
            && SlotTaken(Replay(race, s.commits[..n]), task.Customer(), task.Window())
  {
    var p, before := s.commits[i], Replay(race, s.commits[..i]);
    assert Won(race, s, i) && TxnInv(race, s, p);
    GrantTakesSlot(race, before, p);
    assert s.commits[..i + 1] == s.commits[..i] + [p];
    ReplayOneMore(race, s.commits[..i], p);
    assert s.commits[..n][..i + 1] == s.commits[..i + 1];
    TakenStaysTaken(race, s.commits[..n], i + 1, race.tasks[p].Customer(), race.tasks[p].Window());
  }

  /** In any race, whoever takes part, no two committed calls have the same slot. */
  lemma OneWinnerPerSlot(race: Race, s: System, i: nat, j: nat)
    requires ValidRace(race) && SystemInv(race, s) && i < j < |s.commits|
    ensures !Wants(race, s.commits[j], race.tasks[s.commits[i]].Customer(), race.tasks[s.commits[i]].Window())
  {
    CommitTakesSlot(race, s, i, j);
    CommitTakesSlot(race, s, j, j + 1);
  }

  // ---- Exactly one, once anybody has an answer ----

  /** Nobody in the list wants the slot. */
  predicate Elsewhere(race: Race, pids: seq<Pid>, customer: CustomerId, w: Window) {
    forall i :: 0 <= i < |pids| ==> !Wants(race, pids[i], customer, w)
  }

  /** Each racer makes its own request, and would be granted after any calls that are not for the slot. */
  ghost predicate RaceForSlot(race: Race, customer: CustomerId, w: Window) {
    && ValidRace(race)
    && (forall p, q :: Wants(race, p, customer, w) && q in race.tasks && p != q ==>
          race.tasks[p].Request() != race.tasks[q].Request())
    && (forall p :: Wants(race, p, customer, w) ==> FindGrantRow(race.initial.grants, race.tasks[p].Request()).None?)
    && (forall pids, p :: Known(race, pids) && Elsewhere(race, pids, customer, w) && Wants(race, p, customer, w) ==>
          IssueFor(race, Replay(race, pids), p).0.GrantIssued?)
  }

  /** A request nobody else makes has no grant until its own call has run. */
  lemma {:induction false} OwnRequestIsNew(race: Race, pids: seq<Pid>, p: Pid)
    requires Lawful(race) && Known(race, pids) && p in race.tasks
    requires FindGrantRow(race.initial.grants, race.tasks[p].Request()).None?
    requires forall i :: 0 <= i < |pids| ==> race.tasks[pids[i]].Request() != race.tasks[p].Request()
    ensures FindGrantRow(Replay(race, pids).grants, race.tasks[p].Request()).None?
  {
    if pids != [] {
      var n := |pids| - 1;
      OwnRequestIsNew(race, pids[..n], p);
      var d := Replay(race, pids[..n]);
      var a := IssueAdds(race, d, pids[n]);
      if IsNew(race, d, race.tasks[pids[n]]) {
        FindAppend(d.grants, a.row, race.tasks[p].Request());
      }
    }
  }

  /** Whoever wants the slot and has committed is the winner: there is one at most. */
  ghost predicate IsWinner(race: Race, s: System, i: nat, customer: CustomerId, w: Window) {
    i < |s.commits| && Wants(race, s.commits[i], customer, w)
  }

  /** A racer that was granted has committed. */
  lemma GrantedMeansCommitted(race: Race, s: System, customer: CustomerId, w: Window, p: Pid)
    requires RaceForSlot(race, customer, w) && SystemInv(race, s) && Wants(race, p, customer, w)
    requires TxnOf(s, p).Finished? && !TxnOf(s, p).exhausted && TxnOf(s, p).result.GrantIssued?
    ensures p in s.commits
  {
    var since := TxnOf(s, p).since;
    assert TxnInv(race, s, p);
    if p !in s.commits {
      OwnRequestIsNew(race, s.commits[..since], p);
    }
  }

  lemma SomeoneHasWon(race: Race, s: System, customer: CustomerId, w: Window, p: Pid) returns (winner: nat)
    requires RaceForSlot(race, customer, w) && SystemInv(race, s) && Wants(race, p, customer, w)
    requires TxnOf(s, p).Finished? && !TxnOf(s, p).exhausted
    ensures IsWinner(race, s, winner, customer, w)
  {
    var since := TxnOf(s, p).since;
    assert TxnInv(race, s, p);
    if Elsewhere(race, s.commits[..since], customer, w) {
      OwnRequestIsNew(race, s.commits[..since], p);
      winner := since;
    } else {
      var i :| 0 <= i < since && Wants(race, s.commits[..since][i], customer, w);
      winner := i;
    }
  }

  lemma OnlyOneWinner(race: Race, s: System, customer: CustomerId, w: Window, winner: nat, i: nat)
    requires ValidRace(race) && SystemInv(race, s) && IsWinner(race, s, winner, customer, w)
             && IsWinner(race, s, i, customer, w)
    ensures i == winner
  {
    if i < winner {
      OneWinnerPerSlot(race, s, i, winner);
    } else if winner < i {
      OneWinnerPerSlot(race, s, winner, i);
    }
  }

  /** Of the racers the winner, and nobody else, has a grant. */
  lemma WinnerHasTheGrant(race: Race, s: System, customer: CustomerId, w: Window, winner: nat, p: Pid)
    requires RaceForSlot(race, customer, w) && SystemInv(race, s) && IsWinner(race, s, winner, customer, w)
    requires Wants(race, p, customer, w) && TxnOf(s, p).Finished? && !TxnOf(s, p).exhausted
    ensures TxnOf(s, p).result.GrantIssued? <==> p == s.commits[winner]
  {
    assert Won(race, s, winner);
    if TxnOf(s, p).result.GrantIssued? {
      GrantedMeansCommitted(race, s, customer, w, p);
      var i :| 0 <= i < |s.commits| && s.commits[i] == p;
      OnlyOneWinner(race, s, customer, w, winner, i);
    }
  }

  /**
   * As soon as any racer has an answer other than giving up, exactly one racer has committed; that
   * racer has the grant, and every other such answer is a denial.  Anybody else may be about.
   */
  lemma ExactlyOneWinner(race: Race, steps: seq<TxnStep>, customer: CustomerId, w: Window, p: Pid) returns (winner: nat)
    requires RaceForSlot(race, customer, w) && Wants(race, p, customer, w)
    requires TxnOf(Reach(race, steps), p).Finished? && !TxnOf(Reach(race, steps), p).exhausted
    ensures var s := Reach(race, steps);
            && IsWinner(race, s, winner, customer, w)
            && (forall i :: IsWinner(race, s, i, customer, w) ==> i == winner)
            && (TxnOf(s, p).result.GrantIssued? <==> p == s.commits[winner])
  {
    var s := Reach(race, steps);
    EveryInterleavingIsSequential(race, steps);
    hide Reach, SystemInv, DbSafe, Replay;
    winner := SomeoneHasWon(race, s, customer, w, p);
    forall i | IsWinner(race, s, i, customer, w) ensures i == winner {
      OnlyOneWinner(race, s, customer, w, winner, i);
    }
    WinnerHasTheGrant(race, s, customer, w, winner, p);
  }

  // ---- The race over the relational store ----

  /** A sum over calls, in whatever order. */
  ghost function SumOver(pids: set<Pid>, f: Pid -> nat): nat {
    if pids == {} then 0 else
      var p :| p in pids;
      f(p) + SumOver(pids - {p}, f)
  }

  lemma {:induction false} SumAny(pids: set<Pid>, f: Pid -> nat, p: Pid)
    requires p in pids
    ensures SumOver(pids, f) == f(p) + SumOver(pids - {p}, f)
  {
    var q :| q in pids && SumOver(pids, f) == f(q) + SumOver(pids - {q}, f);
    if q != p {
      SumAny(pids - {q}, f, p);
      SumAny(pids - {p}, f, q);
      assert pids - {q} - {p} == pids - {p} - {q};
    }
  }

  lemma {:induction false} SumGrows(pids: set<Pid>, more: set<Pid>, f: Pid -> nat)
    requires pids <= more
    ensures SumOver(pids, f) <= SumOver(more, f)
  {
    if p :| p in pids {
      SumAny(pids, f, p);
      SumAny(more, f, p);
      SumGrows(pids - {p}, more - {p}, f);
    }
  }

  /** The ceiling a call asks for. */
  function AskedPaise(tasks: map<Pid, Task>): Pid -> nat {
    (p: Pid) => if p in tasks then Max(0, IncentiveCeilingPaise(tasks[p].candidate.item.amountPaise, tasks[p].bps))
      else 0
  }

  /** One call takes at most what it asks for from its own window's merchant pool. */
  lemma IssueTakesAtMost(d: Db, scope: Scope, task: Task, w: Window)
    ensures var (r, d') := SqlIssue(d, scope, task.candidate, task.bps, task.decisionAt);
            var asked := Max(0, IncentiveCeilingPaise(task.candidate.item.amountPaise, task.bps));
            Remaining(MerchantRow(d', w)) >= Remaining(MerchantRow(d, w)) - (if task.Window() == w then asked else 0)
  {
    hide CountActiveSince, SlotTaken, CustomerRow, IncentiveCeilingPaise;
  }

  /** The calls for a window that have a grant they did not start with. */
  ghost function GrantedSince(race: Race, d: Db, w: Window): set<Pid> {
    set p | p in race.tasks && race.tasks[p].Window() == w
            && FindGrantRow(d.grants, race.tasks[p].Request()).Some?
            && FindGrantRow(race.initial.grants, race.tasks[p].Request()).None?
  }

  /** No two calls make the same request. */
  ghost predicate OwnRequests(race: Race) {
    forall p, q :: p in race.tasks && q in race.tasks && p != q ==> race.tasks[p].Request() != race.tasks[q].Request()
  }

  lemma FoundAfterAppend(grants: seq<GrantRow>, row: GrantRow, id: RequestId)
    ensures FindGrantRow(grants + [row], id).Some? <==> FindGrantRow(grants, id).Some? || row.requestId == id
  {
    assert (grants + [row])[..|grants|] == grants;
  }

  lemma {:induction false} FoundStaysFound(race: Race, pids: seq<Pid>, id: RequestId)
    requires Lawful(race) && Known(race, pids) && FindGrantRow(race.initial.grants, id).Some?
    ensures FindGrantRow(Replay(race, pids).grants, id).Some?
  {
    if pids != [] {
      var n := |pids| - 1;
      FoundStaysFound(race, pids[..n], id);
      var d := Replay(race, pids[..n]);
      var a := IssueAdds(race, d, pids[n]);
      FoundAfterAppend(d.grants, a.row, id);
    }
  }

  /** A call that is granted anew joins those that have been; any other changes nothing. */
  lemma GrantedOneMore(race: Race, d: Db, q: Pid, w: Window)
    requires Lawful(race) && OwnRequests(race) && q in race.tasks
    requires FindGrantRow(d.grants, race.tasks[q].Request()).None? ==>
               FindGrantRow(race.initial.grants, race.tasks[q].Request()).None?
    ensures var before, after := GrantedSince(race, d, w), GrantedSince(race, IssueFor(race, d, q).1, w);
            if IsNew(race, d, race.tasks[q]) && race.tasks[q].Window() == w
            then q !in before && after == before + {q}
            else after == before
  {
    var a := IssueAdds(race, d, q);
    if IsNew(race, d, race.tasks[q]) {
      forall p | p in race.tasks
        ensures FindGrantRow(IssueFor(race, d, q).1.grants, race.tasks[p].Request()).Some?
                <==> FindGrantRow(d.grants, race.tasks[p].Request()).Some? || p == q
      {
        FoundAfterAppend(d.grants, a.row, race.tasks[p].Request());
      }
    }
  }

  /** The merchant's pool has lost no more than the calls granted since asked for. */
  lemma {:induction false} MarginTaken(tasks: map<Pid, Task>, scope: Scope, initial: Db, pids: seq<Pid>, w: Window)
    requires var race := SqlRace(tasks, scope, initial); OwnRequests(race) && Known(race, pids)
    ensures var race := SqlRace(tasks, scope, initial);
            var d := Replay(race, pids);
            Remaining(MerchantRow(d, w)) >= Remaining(MerchantRow(initial, w))
              - SumOver(GrantedSince(race, d, w), AskedPaise(tasks))
  {
    var race := SqlRace(tasks, scope, initial);
    SqlIsLawful(tasks, scope, initial);
    if pids == [] {
      assert GrantedSince(race, initial, w) == {};
    } else {
      var n := |pids| - 1;
      var q, d := pids[n], Replay(race, pids[..n]);
      MarginTaken(tasks, scope, initial, pids[..n], w);
      if FindGrantRow(race.initial.grants, race.tasks[q].Request()).Some? {
        FoundStaysFound(race, pids[..n], race.tasks[q].Request());
      }
      GrantedOneMore(race, d, q, w);
      IssueTakesAtMost(d, scope, tasks[q], w);
      CallTakesAtMost(race, d, q, w, AskedPaise(tasks));
    }
  }

  lemma CallTakesAtMost(race: Race, d: Db, q: Pid, w: Window, asked: Pid -> nat)
    requires Lawful(race) && q in race.tasks
    requires var before, after := GrantedSince(race, d, w), GrantedSince(race, IssueFor(race, d, q).1, w);
             if IsNew(race, d, race.tasks[q]) && race.tasks[q].Window() == w
             then q !in before && after == before + {q}
             else after == before
    requires Remaining(MerchantRow(IssueFor(race, d, q).1, w))
             >= Remaining(MerchantRow(d, w)) - (if race.tasks[q].Window() == w then asked(q) else 0)
    ensures Remaining(MerchantRow(IssueFor(race, d, q).1, w))
            + SumOver(GrantedSince(race, IssueFor(race, d, q).1, w), asked)
            >= Remaining(MerchantRow(d, w)) + SumOver(GrantedSince(race, d, w), asked)
  {
    var a := IssueAdds(race, d, q);
    var before, after := GrantedSince(race, d, w), GrantedSince(race, IssueFor(race, d, q).1, w);
    hide GrantedSince, MerchantRow;
    if IsNew(race, d, race.tasks[q]) && race.tasks[q].Window() == w {
      SumAny(after, asked, q);
      assert after - {q} == before;
    }
  }

  lemma {:induction false} OthersKeepOwn(race: Race, pids: seq<Pid>, task: Task)
    requires ValidRace(race) && Known(race, pids)
    requires forall i :: 0 <= i < |pids| ==>
               race.tasks[pids[i]].Customer() != task.Customer() && race.tasks[pids[i]].Request() != task.Request()
    ensures SameOwn(race, race.initial, Replay(race, pids), task)
  {
    if pids != [] {
      var n := |pids| - 1;
      OthersKeepOwn(race, pids[..n], task);
      ReplayIsSafe(race, pids[..n]);
      OthersLeaveOwn(race, Replay(race, pids[..n]), pids[n], task);
    }
  }

  /** A call that would be granted still is if only the merchant's pool has changed, and not run out. */
  lemma StillGranted(race: Race, d: Db, d': Db, task: Task)
    requires DbSafe(d) && DbSafe(d') && SameOwn(race, d, d', task) && FindGrantRow(d.grants, task.Request()).None?
    requires SqlIssue(d, race.scope, task.candidate, task.bps, task.decisionAt).0.GrantIssued?
    requires Remaining(MerchantRow(d', task.Window())) > 0
    ensures SqlIssue(d', race.scope, task.candidate, task.bps, task.decisionAt).0.GrantIssued?
  {
    RequestChangesNothing(d, task.candidate.request, race.scope, task.candidate, task.decisionAt);
    RequestChangesNothing(d', task.candidate.request, race.scope, task.candidate, task.decisionAt);
  }

  /** The calls of other customers for the same window, which draw on the same merchant pool. */
  ghost function Rivals(tasks: map<Pid, Task>, customer: CustomerId, w: Window): set<Pid> {
    set p | p in tasks && tasks[p].Window() == w && tasks[p].Customer() != customer
  }

  /**
   * What the racers over the relational store have to be given: a free slot, below the caps, and a
   * merchant pool with something left once every rival in the window has got all it asks for.
   */
  ghost predicate FairStart(tasks: map<Pid, Task>, scope: Scope, initial: Db, customer: CustomerId, w: Window) {
    var race := SqlRace(tasks, scope, initial);
    && DbSafe(initial) && RequestsMatch(race, initial) && OwnRequests(race)
    && SumOver(Rivals(tasks, customer, w), AskedPaise(tasks)) < Remaining(MerchantRow(initial, w))
    && (forall p :: p in tasks ==>
          if tasks[p].Customer() == customer && tasks[p].Window() == w
          then FindGrantRow(initial.grants, tasks[p].Request()).None?
               && SqlIssue(initial, scope, tasks[p].candidate, tasks[p].bps, tasks[p].decisionAt).0.GrantIssued?
          else tasks[p].Customer() != customer)
  }

  lemma FairStartIsValid(tasks: map<Pid, Task>, scope: Scope, initial: Db, customer: CustomerId, w: Window)
    requires FairStart(tasks, scope, initial, customer, w)
    ensures ValidRace(SqlRace(tasks, scope, initial)) && OwnRequests(SqlRace(tasks, scope, initial))
  {
    SqlIsLawful(tasks, scope, initial);
    hide SqlIssue, SumOver;
  }

  /** Of calls that are not for the slot, only rivals can have taken from its window's pool. */
  lemma OnlyRivalsTake(tasks: map<Pid, Task>, scope: Scope, initial: Db, customer: CustomerId, w: Window,
                       pids: seq<Pid>)
    requires FairStart(tasks, scope, initial, customer, w)
    requires var race := SqlRace(tasks, scope, initial); Known(race, pids) && Elsewhere(race, pids, customer, w)
    ensures var race := SqlRace(tasks, scope, initial);
            GrantedSince(race, Replay(race, pids), w) <= Rivals(tasks, customer, w)
  {
    var race := SqlRace(tasks, scope, initial);
    FairStartIsValid(tasks, scope, initial, customer, w);
    hide SqlIssue, SumOver, Replay;
    forall p | p in GrantedSince(race, Replay(race, pids), w) ensures p in Rivals(tasks, customer, w) {
      if Wants(race, p, customer, w) {
        OwnRequestIsNew(race, pids, p);
      }
    }
  }

  /** Other customers' traffic, in this window or any other, leaves a racer below its caps and funded. */
  lemma UnrelatedTrafficIsHarmless(
    tasks: map<Pid, Task>, scope: Scope, initial: Db, customer: CustomerId, w: Window, pids: seq<Pid>, p: Pid)
    requires FairStart(tasks, scope, initial, customer, w)
    requires var race := SqlRace(tasks, scope, initial);
             Known(race, pids) && Elsewhere(race, pids, customer, w) && Wants(race, p, customer, w)
    ensures var race := SqlRace(tasks, scope, initial); IssueFor(race, Replay(race, pids), p).0.GrantIssued?
  {
    var race := SqlRace(tasks, scope, initial);
    var d, task := Replay(race, pids), tasks[p];
    FairStartIsValid(tasks, scope, initial, customer, w);
    ReplayIsSafe(race, pids);
    OnlyRivalsTake(tasks, scope, initial, customer, w, pids);
    SumGrows(GrantedSince(race, d, w), Rivals(tasks, customer, w), AskedPaise(tasks));
    MarginTaken(tasks, scope, initial, pids, w);
    hide SumOver, GrantedSince, Rivals, AskedPaise, Replay, SameOwn;
    forall i | 0 <= i < |pids|
      ensures tasks[pids[i]].Customer() != customer && tasks[pids[i]].Request() != task.Request()
    {
      assert !Wants(race, pids[i], customer, w);
    }
    OthersKeepOwn(race, pids, task);
    hide SqlIssue, MerchantRow;
    StillGranted(race, initial, d, task);
  }

  /** The issuance transaction itself: racers for one free slot beside any such traffic. */
  lemma SqlRaceIsForSlot(tasks: map<Pid, Task>, scope: Scope, initial: Db, customer: CustomerId, w: Window)
    requires FairStart(tasks, scope, initial, customer, w)
    ensures RaceForSlot(SqlRace(tasks, scope, initial), customer, w)
  {
    var race := SqlRace(tasks, scope, initial);
    FairStartIsValid(tasks, scope, initial, customer, w);
    hide SqlIssue, SumOver, ValidRace, Replay;
    forall pids, p | Known(race, pids) && Elsewhere(race, pids, customer, w) && Wants(race, p, customer, w)
      ensures IssueFor(race, Replay(race, pids), p).0.GrantIssued?
    {
      UnrelatedTrafficIsHarmless(tasks, scope, initial, customer, w, pids, p);
    }
  }

  /** Under every interleaving of the real transaction: sequential, safe, and one winner of the slot. */
  lemma SqlRaceHasOneWinner(tasks: map<Pid, Task>, scope: Scope, initial: Db, steps: seq<TxnStep>, customer: CustomerId,
                            w: Window, p: Pid)
    returns (winner: nat)
    requires FairStart(tasks, scope, initial, customer, w) && Wants(SqlRace(tasks, scope, initial), p, customer, w)
    requires var txn := TxnOf(Reach(SqlRace(tasks, scope, initial), steps), p); txn.Finished? && !txn.exhausted
    ensures var race := SqlRace(tasks, scope, initial);
            var s := Reach(race, steps);
            && DbSafe(s.db) && s.db == Replay(race, s.commits)
            && IsWinner(race, s, winner, customer, w) && (forall i :: IsWinner(race, s, i, customer, w) ==> i == winner)
            && (TxnOf(s, p).result.GrantIssued? <==> p == s.commits[winner])
  {
    SqlRaceIsForSlot(tasks, scope, initial, customer, w);
    hide SqlRace, FairStart, IsWinner, Wants, Replay, DbSafe;
    EveryInterleavingIsSequential(SqlRace(tasks, scope, initial), steps);
    winner := ExactlyOneWinner(SqlRace(tasks, scope, initial), steps, customer, w, p);
  }
}
