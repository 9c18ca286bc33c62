/**
 * Every row an issuance transaction waits for (sampark/budget/issuance.py), in the order it takes
 * them: its request's row, the merchant's pool, the customer's pool, and last the customer's contact
 * state.  Transactions may end at any moment, by committing, denying or failing, and may start again.
 */
module LockOrder {
  import Clock
  import opened ConcurrentIssuance
  import opened Contracts

  datatype Row =
    | RequestRow(request: RequestId)
    | MerchantRow(window: Clock.Window)
    | CustomerRow(customer: CustomerId, window: Clock.Window)
    | ContactRow(customer: CustomerId)

  function Rank(r: Row): nat {
    match r
    case RequestRow(_) => 0
    case MerchantRow(_) => 1
    case CustomerRow(_, _) => 2
    case ContactRow(_) => 3
  }

  const ALL_ROWS := 4

  /** The rows of a transaction by rank. */
  function RowAt(task: Task, i: nat): Row
    requires i < ALL_ROWS
  {
    if i == 0 then RequestRow(task.Request())
    else if i == 1 then MerchantRow(task.Window())
    else if i == 2 then CustomerRow(task.Customer(), task.Window())
    else ContactRow(task.Customer())
  }

  /** Who holds which row, how many rows each transaction has taken, and who is done. */
  datatype Locks = Locks(owner: map<Row, Pid>, taken: map<Pid, nat>, done: set<Pid>)

  datatype LockStep = Take(pid: Pid) | End(pid: Pid, again: bool)

  function TakenBy(s: Locks, p: Pid): nat {
    if p in s.taken then s.taken[p] else 0
  }

  predicate Waits(tasks: map<Pid, Task>, s: Locks, p: Pid) {
    p in tasks && p !in s.done && TakenBy(s, p) < ALL_ROWS && RowAt(tasks[p], TakenBy(s, p)) in s.owner
  }

  function NextLocks(tasks: map<Pid, Task>, s: Locks, step: LockStep): Locks {
    var p := step.pid;
    if p !in tasks || p in s.done then s else
      match step
      case Take(_) =>
        if TakenBy(s, p) >= ALL_ROWS || Waits(tasks, s, p) then s
        else s.(owner := s.owner[RowAt(tasks[p], TakenBy(s, p)) := p], taken := s.taken[p := TakenBy(s, p) + 1])
      case End(_, again) =>
        Locks(Unlocked(s.owner, p), s.taken[p := 0], if again then s.done else s.done + {p})
  }

  function AllSteps(tasks: map<Pid, Task>, steps: seq<LockStep>): Locks {
    if steps == [] then Locks(map[], map[], {})
    else NextLocks(tasks, AllSteps(tasks, steps[..|steps| - 1]), steps[|steps| - 1])
  }

  /** A row is held by a transaction that needs it and has come past it. */
  ghost predicate Orderly(tasks: map<Pid, Task>, s: Locks) {
    forall r :: r in s.owner ==>
      var p := s.owner[r];
      p in tasks && p !in s.done && Rank(r) < TakenBy(s, p) <= ALL_ROWS && RowAt(tasks[p], Rank(r)) == r
  }

  ghost predicate WithinPlan(s: Locks) {
    forall p :: TakenBy(s, p) <= ALL_ROWS
  }

  lemma StepKeepsOrderly(tasks: map<Pid, Task>, s: Locks, step: LockStep)
    requires Orderly(tasks, s) && WithinPlan(s)
    ensures Orderly(tasks, NextLocks(tasks, s, step)) && WithinPlan(NextLocks(tasks, s, step))
  {
    var s' := NextLocks(tasks, s, step);
    forall p ensures TakenBy(s', p) <= ALL_ROWS {
      assert TakenBy(s, p) <= ALL_ROWS;
    }
  }

  lemma {:induction false} EveryInterleavingIsOrderly(tasks: map<Pid, Task>, steps: seq<LockStep>)
    ensures Orderly(tasks, AllSteps(tasks, steps)) && WithinPlan(AllSteps(tasks, steps))
  {
    if steps != [] {
      EveryInterleavingIsOrderly(tasks, steps[..|steps| - 1]);
      StepKeepsOrderly(tasks, AllSteps(tasks, steps[..|steps| - 1]), steps[|steps| - 1]);
    }
  }

  /** Following who waits for whom, each has taken more rows than the last, so the chain ends. */
  lemma {:induction false} SomebodyDoesNotWait(tasks: map<Pid, Task>, s: Locks, p: Pid) returns (q: Pid)
    requires Orderly(tasks, s) && p in tasks && p !in s.done && WithinPlan(s)
    ensures q in tasks && q !in s.done && !Waits(tasks, s, q)
    decreases ALL_ROWS - TakenBy(s, p)
  {
    if Waits(tasks, s, p) {
      var r := RowAt(tasks[p], TakenBy(s, p));
      assert Rank(r) == TakenBy(s, p);
      q := SomebodyDoesNotWait(tasks, s, s.owner[r]);
    } else {
      q := p;
    }
  }

  /** A transaction that ends holds no row and has taken none, and is done unless it starts again. */
  lemma EndingMeans(tasks: map<Pid, Task>, s: Locks, p: Pid, again: bool, r: Row)
    requires Orderly(tasks, s) && p in tasks && p !in s.done
    ensures var s' := NextLocks(tasks, s, End(p, again));
            && TakenBy(s', p) == 0 && (p in s'.done <==> !again)
            && (r in s'.owner <==> r in s.owner && s.owner[r] != p) && (r in s'.owner ==> s'.owner[r] == s.owner[r])
            && forall q :: q != p ==> TakenBy(s', q) == TakenBy(s, q) && (q in s'.done <==> q in s.done)
  {
  }

  /**
   * Under every interleaving, while anybody is unfinished somebody unfinished is not waiting for a row:
   * it has them all, or takes the next of its own.
   */
  lemma NeverAllWait(tasks: map<Pid, Task>, steps: seq<LockStep>, p: Pid) returns (q: Pid)
    requires p in tasks && p !in AllSteps(tasks, steps).done
    ensures q in tasks && q !in AllSteps(tasks, steps).done && !Waits(tasks, AllSteps(tasks, steps), q)
    ensures var s, s' := AllSteps(tasks, steps), NextLocks(tasks, AllSteps(tasks, steps), Take(q));
            TakenBy(s, q) >= 4 || (RowAt(tasks[q], TakenBy(s, q)) !in s.owner && TakenBy(s', q) == TakenBy(s, q) + 1)
  {
    EveryInterleavingIsOrderly(tasks, steps);
    q := SomebodyDoesNotWait(tasks, AllSteps(tasks, steps), p);
  }
}
