/**
 * Any number of issuance transactions at once (sampark/budget/issuance.py): SERIALIZABLE isolation
 * with the merchant's row locked before the customer's, and up to five attempts each.
 *
 * A transaction reads the state committed when it began.  Locking a row that another transaction has
 * changed since, or committing after another one committed a grant for the same customer or request,
 * is a serialization failure; the database may also raise one for no visible reason.
 */
module ConcurrentIssuance {
  import opened Clock
  import opened Contracts
  import opened Ledger
  import opened SqlStore
  import opened Wrappers

  const MAX_SERIALIZATION_RETRIES := 5

  type Pid = nat

  datatype Task = Task(candidate: Candidate, bps: int, decisionAt: Instant) {
    function Customer(): CustomerId { candidate.customerId }
    function Window(): Clock.Window { candidate.windowId }
    function Request(): RequestId { candidate.request.requestId }
    function NextEligible(): Instant { NextWindowStart(candidate.windowId) }
  }

  /**
   * What the racers were called with, the database they start from, what one call does to a database,
   * and the rows an attempt that read a snapshot (the second database) writes when it commits.
   */
  datatype Race = Race(
    tasks: map<Pid, Task>, scope: Scope, initial: Db,
    issue: (Db, Task) -> (IssuanceResult, Db), writes: (Db, Db, Task) -> Db)

  /** Where a call stands; `since` is how many grants had been committed when the attempt began. */
  datatype Txn =
    | Ready(attempt: nat)
    | Began(attempt: nat, since: nat)
    | MerchantLocked(attempt: nat, since: nat)
    | BothLocked(attempt: nat, since: nat)
    | Written(attempt: nat, since: nat)
    | Finished(result: IssuanceResult, since: nat, exhausted: bool)

  datatype System = System(
    db: Db, commits: seq<Pid>, txns: map<Pid, Txn>,
    merchantLocks: map<Window, Pid>, customerLocks: map<(CustomerId, Window), Pid>)

  datatype TxnStep =
    | Begin(pid: Pid)
    | LockMerchant(pid: Pid)
    | LockCustomer(pid: Pid)
    | Write(pid: Pid)
    | Commit(pid: Pid)
    | Fail(pid: Pid)

  function Start(race: Race): System {
    System(race.initial, [], map[], map[], map[])
  }

  function TxnOf(s: System, p: Pid): Txn {
    if p in s.txns then s.txns[p] else Ready(0)
  }

  function Move(s: System, p: Pid, txn: Txn): System {
    s.(txns := s.txns[p := txn])
  }

  function Unlocked<K>(locks: map<K, Pid>, p: Pid): map<K, Pid> {
    map k | k in locks && locks[k] != p :: locks[k]
  }

  /** The transaction ends, and its locks with it. */
  function Release(s: System, p: Pid, txn: Txn): System {
    Move(s.(merchantLocks := Unlocked(s.merchantLocks, p), customerLocks := Unlocked(s.customerLocks, p)), p, txn)
  }

  /** A serialization failure: try the whole transaction again, or give up. */
  function Retry(s: System, p: Pid, task: Task, attempt: nat): System {
    Release(s, p, if attempt + 1 < MAX_SERIALIZATION_RETRIES then Ready(attempt + 1)
                  else Finished(BudgetDenial(ContactSlotTaken, task.NextEligible()), |s.commits|, true))
  }

  // ---- The sequential meaning ----

  function IssueFor(race: Race, db: Db, p: Pid): (IssuanceResult, Db)
    requires p in race.tasks
  {
    race.issue(db, race.tasks[p])
  }

  predicate Known(race: Race, pids: seq<Pid>) {
    forall i :: 0 <= i < |pids| ==> pids[i] in race.tasks
  }

  /** The database after the listed calls, one after another. */
  function Replay(race: Race, pids: seq<Pid>): Db
    requires Known(race, pids)
  {
    if pids == [] then race.initial else IssueFor(race, Replay(race, pids[..|pids| - 1]), pids[|pids| - 1]).1
  }

  // ---- What a transaction can notice of the others ----

  predicate Touches(race: Race, pids: seq<Pid>, w: Window)
    requires Known(race, pids)
  {
    exists i :: 0 <= i < |pids| && race.tasks[pids[i]].Window() == w
  }

  predicate Conflicts(race: Race, pids: seq<Pid>, task: Task)
    requires Known(race, pids)
  {
    exists i :: 0 <= i < |pids| && (race.tasks[pids[i]].Customer() == task.Customer()
                                    || race.tasks[pids[i]].Request() == task.Request())
  }

  /** One step of one transaction.  A step that is not due, or that has to wait for a lock, changes nothing. */
  function Next(race: Race, s: System, step: TxnStep): System
    requires Known(race, s.commits)
  {
    var p := step.pid;
    if p !in race.tasks then s else
      var task, txn := race.tasks[p], TxnOf(s, p);
      match step
      case Begin(_) =>
        if !txn.Ready? then s
        else
          var existing := FindGrantRow(s.db.grants, task.Request());
          if existing.Some?
            then Move(s, p, Finished(GrantIssued(s.db.grants[existing.value].grant), |s.commits|, false))
          else Move(s, p, Began(txn.attempt, |s.commits|))
      case LockMerchant(_) =>
        if !txn.Began? || txn.since > |s.commits| || task.Window() in s.merchantLocks then s
        else if Touches(race, s.commits[txn.since..], task.Window()) then Retry(s, p, task, txn.attempt)
        else Move(s.(merchantLocks := s.merchantLocks[task.Window() := p]), p, MerchantLocked(txn.attempt, txn.since))
      case LockCustomer(_) =>
        if !txn.MerchantLocked? || txn.since > |s.commits| || (task.Customer(), task.Window()) in s.customerLocks then s
        else if Touches(race, s.commits[txn.since..], task.Window()) then Retry(s, p, task, txn.attempt)
        else Move(s.(customerLocks := s.customerLocks[(task.Customer(), task.Window()) := p]), p,
                  BothLocked(txn.attempt, txn.since))
      case Write(_) =>
        if !txn.BothLocked? || txn.since > |s.commits| then s
        else
          var result := IssueFor(race, Replay(race, s.commits[..txn.since]), p).0;
          if result.BudgetDenial? then Release(s, p, Finished(result, txn.since, false))
          else if SlotTaken(s.db, task.Customer(), task.Window()) then
            Release(s, p, Finished(BudgetDenial(ContactSlotTaken, task.NextEligible()), |s.commits|, false))
          else Move(s, p, Written(txn.attempt, txn.since))
      case Commit(_) =>
        if !txn.Written? || txn.since > |s.commits| then s
        else if Conflicts(race, s.commits[txn.since..], task) then Retry(s, p, task, txn.attempt)
        else
          var snapshot := Replay(race, s.commits[..txn.since]);
          Release(s.(db := race.writes(s.db, snapshot, task), commits := s.commits + [p]), p,
                  Finished(IssueFor(race, snapshot, p).0, |s.commits|, false))
      case Fail(_) =>
        if txn.Ready? || txn.Finished? then s else Retry(s, p, task, txn.attempt)
  }

  // ---- The race over the relational store ----

  /** The rows written by an attempt that read `snapshot`, committed on top of `db`. */
  function CommitWrites(scope: Scope, db: Db, snapshot: Db, task: Task): Db {
    var read := WithRequest(snapshot, task.candidate.request);
    var c := task.candidate;
    var ceiling := SqlCeiling(read, scope, c, task.bps);
    var grant := NewGrant(c, ceiling);
    WithRequest(db, c.request).(
      grants := db.grants + [GrantRow(c.request.requestId, grant, c.windowId)],
      claims := db.claims + [Claim(grant.grantId, c.customerId, c.windowId, Reserved, task.decisionAt, None)],
      budgetWindows := db.budgetWindows[c.windowId := Reserve(MerchantRow(read, c.windowId), ceiling)],
      customerMargins := db.customerMargins[(c.customerId, c.windowId) :=
        Reserve(CustomerRow(read, scope, c.customerId, c.windowId), ceiling)])
  }

  function SqlRace(tasks: map<Pid, Task>, scope: Scope, initial: Db): Race {
    Race(tasks, scope, initial,
         (d: Db, t: Task) => SqlIssue(d, scope, t.candidate, t.bps, t.decisionAt),
         (d: Db, snapshot: Db, t: Task) => CommitWrites(scope, d, snapshot, t))
  }
}
