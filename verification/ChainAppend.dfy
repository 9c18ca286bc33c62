/**
 * Appending to the chain (sampark/audit/chain.py, append): the call as a program over the event table,
 * and any number of concurrent appenders as interleaved steps of its transaction, each of which can
 * also be abandoned at any point.
 */
module ChainAppend {
  import opened Canonical
  import opened Chain
  import opened Wrappers

  const PENDING_PREV_HASH := "PENDING"

  datatype AppendResult = Appended(event: Event, digest: string) | AlreadyAppended(existing: Event)

  datatype AppendError = NotPending | Fork(prevHash: string) | Unhashable(payloadError: PayloadError)

  // ---- The log the appends keep ----

  ghost predicate UniqueIds(events: seq<Event>) {
    forall i, j :: 0 <= i < j < |events| ==> events[i].eventId != events[j].eventId
  }

  ghost predicate NoForks(events: seq<Event>) {
    forall i, j :: 0 <= i < j < |events| ==> events[i].prevHash != events[j].prevHash
  }

  ghost predicate GoodChain(hash: Hasher, events: seq<Event>) {
    GoodLog(events) && Linked(hash, events) && UniqueIds(events)
  }

  function FindEvent(events: seq<Event>, id: string): (r: Option<nat>)
    ensures r.Some? ==> r.value < |events| && events[r.value].eventId == id
    ensures r.None? ==> forall i :: 0 <= i < |events| ==> events[i].eventId != id
  {
    if events == [] then None
    else if events[|events| - 1].eventId == id then Some(|events| - 1)
    else FindEvent(events[..|events| - 1], id)
  }

  function FindPrevHash(events: seq<Event>, prevHash: string): (r: Option<nat>)
    ensures r.Some? ==> r.value < |events| && events[r.value].prevHash == prevHash
    ensures r.None? ==> forall i :: 0 <= i < |events| ==> events[i].prevHash != prevHash
  {
    if events == [] then None
    else if events[|events| - 1].prevHash == prevHash then Some(|events| - 1)
    else FindPrevHash(events[..|events| - 1], prevHash)
  }

  /** Distinct events hash differently, so no event of the log names the current head. */
  lemma HeadIsUnclaimed(hash: Hasher, events: seq<Event>, i: nat)
    requires SoundHasher(hash) && GoodChain(hash, events) && i < |events|
    ensures events[i].prevHash != HeadHash(hash, events)
  {
    assert LinkedAt(hash, events, i);
    var n := |events| - 1;
    assert GoodEvent(events[n]);
    if i > 0 {
      assert GoodEvent(events[i - 1]);
      assert events[..i][i - 1] == events[i - 1];
      assert events[i - 1].eventId != events[n].eventId;
    }
  }

  lemma AppendKeepsChain(hash: Hasher, events: seq<Event>, e: Event)
    requires SoundHasher(hash) && GoodChain(hash, events) && GoodEvent(e)
    requires e.prevHash == HeadHash(hash, events) && FindEvent(events, e.eventId).None?
    ensures GoodChain(hash, events + [e])
  {
    var all := events + [e];
    forall i | 0 <= i < |all| ensures LinkedAt(hash, all, i) {
      if i < |events| {
        assert LinkedAt(hash, events, i);
        assert all[..i] == events[..i];
      } else {
        assert all[..i] == events;
      }
    }
  }

  /** A good chain never names the same predecessor twice. */
  lemma GoodChainHasNoForks(hash: Hasher, events: seq<Event>)
    requires SoundHasher(hash) && GoodChain(hash, events)
    ensures NoForks(events)
  {
    forall i, j | 0 <= i < j < |events| ensures events[i].prevHash != events[j].prevHash {
      PrefixIsGood(hash, events, j);
      HeadIsUnclaimed(hash, events[..j], i);
      assert LinkedAt(hash, events, j);
      assert events[..j][i] == events[i];
    }
  }

  lemma PrefixIsGood(hash: Hasher, events: seq<Event>, n: nat)
    requires GoodChain(hash, events) && n <= |events|
    ensures GoodChain(hash, events[..n])
  {
    PrefixIsLinked(hash, events, n);
  }

  // ---- One appender ----

  class AuditLog {
    const hash: Hasher
    var events: seq<Event>

    constructor (hash: Hasher)
      ensures this.hash == hash && events == []
    {
      this.hash := hash;
      events := [];
    }

    /** The append transaction, under the lock: probe, head, fork check, insert. */
    method Append(draft: Event) returns (result: Result<AppendResult, AppendError>)
      requires SoundHasher(hash) && GoodChain(hash, events) && WellFormedMembers(draft.payload)
      modifies this`events
      ensures GoodChain(hash, events) && old(events) <= events
      ensures result.Err? ==> events == old(events)
      ensures result.Err? <==> draft.prevHash != PENDING_PREV_HASH
                               || (FindEvent(old(events), draft.eventId).None? && !Hashable(draft))
      ensures result.Err? ==> !result.error.Fork?
      ensures result.Ok? && FindEvent(old(events), draft.eventId).Some? ==>
                events == old(events) && result.value == AlreadyAppended(events[FindEvent(events, draft.eventId).value])
      ensures result.Ok? && FindEvent(old(events), draft.eventId).None? ==>
                var final := draft.(prevHash := HeadHash(hash, old(events)));
                && events == old(events) + [final]
                && result.value.Appended? && result.value.event == final && hash(final) == Ok(result.value.digest)
    {
      if draft.prevHash != PENDING_PREV_HASH {
        return Err(NotPending);
      }
      var existing := FindEvent(events, draft.eventId);
      if existing.Some? {
        return Ok(AlreadyAppended(events[existing.value]));
      }
      var prevHash := GENESIS_HASH;
      if events != [] {
        assert GoodEvent(events[|events| - 1]);
        prevHash := hash(events[|events| - 1]).value;
      }
      var claimed := FindPrevHash(events, prevHash);
      if claimed.Some? {
        HeadIsUnclaimed(hash, events, claimed.value);
        assert false;
      }
      var final := draft.(prevHash := prevHash);
      var digest := hash(final);
      if digest.Err? {
        return Err(Unhashable(digest.error));
      }
      AppendKeepsChain(hash, events, final);
      events := events + [final];
      return Ok(Appended(final, digest.value));
    }
  }

  // ---- Any number of appenders ----

  type Pid = nat

  /** Where an appender's transaction stands. */
  datatype Stage =
    | Idle
    | Waiting(draft: Event)
    | Holding(draft: Event)
    | Probed(draft: Event)
    | HeadRead(draft: Event, prevHash: string)
    | Checked(draft: Event, prevHash: string)
    | Inserted(final: Event)
    | Forked(prevHash: string)

  datatype System = System(log: seq<Event>, lock: Option<Pid>, stages: map<Pid, Stage>)

  datatype Step =
    | Begin(pid: Pid, draft: Event)
    | TakeLock(pid: Pid)
    | Probe(pid: Pid)
    | ReadHead(pid: Pid)
    | CheckFork(pid: Pid)
    | Insert(pid: Pid)
    | Commit(pid: Pid)
    | Abandon(pid: Pid)

  const START := System([], None, map[])

  function StageOf(s: System, p: Pid): Stage {
    if p in s.stages then s.stages[p] else Idle
  }

  function Move(s: System, p: Pid, stage: Stage): System {
    s.(stages := s.stages[p := stage])
  }

  /** The transaction is over: the lock goes with it. */
  function Release(s: System, p: Pid, stage: Stage): System {
    Move(if s.lock == Some(p) then s.(lock := None) else s, p, stage)
  }

  /** One step of one appender.  A step that is not due changes nothing. */
  function Next(hash: Hasher, s: System, step: Step): System {
    var p := step.pid;
    match step
    case Begin(_, draft) => if StageOf(s, p).Idle? && draft.prevHash == PENDING_PREV_HASH
      then Move(s, p, Waiting(draft)) else s
    case TakeLock(_) =>
      if StageOf(s, p).Waiting? && s.lock.None? then Move(s.(lock := Some(p)), p, Holding(StageOf(s, p).draft)) else s
    case Probe(_) =>
      if !StageOf(s, p).Holding? then s
      else if FindEvent(s.log, StageOf(s, p).draft.eventId).Some? then Release(s, p, Idle)
      else Move(s, p, Probed(StageOf(s, p).draft))
    case ReadHead(_) =>
      if StageOf(s, p).Probed? then Move(s, p, HeadRead(StageOf(s, p).draft, HeadHash(hash, s.log))) else s
    case CheckFork(_) =>
      if !StageOf(s, p).HeadRead? then s
      else if FindPrevHash(s.log, StageOf(s, p).prevHash).Some? then Release(s, p, Forked(StageOf(s, p).prevHash))
      else Move(s, p, Checked(StageOf(s, p).draft, StageOf(s, p).prevHash))
    case Insert(_) =>
      if !StageOf(s, p).Checked? then s else
        var final := StageOf(s, p).draft.(prevHash := StageOf(s, p).prevHash);
        if hash(final).Err? then Release(s, p, Idle) else Move(s, p, Inserted(final))
    case Commit(_) =>
      if StageOf(s, p).Inserted? then Release(s.(log := s.log + [StageOf(s, p).final]), p, Idle) else s
    case Abandon(_) => Release(s, p, Idle)
  }

  ghost predicate Drafted(stage: Stage) {
    match stage
    case Idle => true
    case Forked(_) => true
    case Inserted(final) => GoodEvent(final)
    case _ => WellFormedMembers(stage.draft.payload)
  }

  /** The lock's holder knows the log as it is; nobody else is past the lock. */
  ghost predicate InCharge(hash: Hasher, s: System, p: Pid) {
    var stage := StageOf(s, p);
    && Drafted(stage)
    && (stage.Holding? || stage.Probed? || stage.HeadRead? || stage.Checked? || stage.Inserted? ==> s.lock == Some(p))
    && (stage.Probed? || stage.HeadRead? || stage.Checked? ==> FindEvent(s.log, stage.draft.eventId).None?)
    && (stage.HeadRead? || stage.Checked? ==> stage.prevHash == HeadHash(hash, s.log))
    && (stage.Inserted? ==>
        stage.final.prevHash == HeadHash(hash, s.log) && FindEvent(s.log, stage.final.eventId).None?)
    && !stage.Forked?
  }

  ghost predicate SystemInv(hash: Hasher, s: System) {
    GoodChain(hash, s.log) && forall p :: InCharge(hash, s, p)
  }

  ghost predicate WellDrafted(step: Step) {
    step.Begin? ==> WellFormedMembers(step.draft.payload)
  }

  lemma StepKeepsInv(hash: Hasher, s: System, step: Step)
    requires SoundHasher(hash) && SystemInv(hash, s) && WellDrafted(step)
    ensures SystemInv(hash, Next(hash, s, step))
    ensures s.log <= Next(hash, s, step).log
  {
    var s', p := Next(hash, s, step), step.pid;
    var stage := StageOf(s, p);
    assert InCharge(hash, s, p);
    if step.CheckFork? && stage.HeadRead? {
      var claimed := FindPrevHash(s.log, stage.prevHash);
      if claimed.Some? {
        HeadIsUnclaimed(hash, s.log, claimed.value);
      }
    }
    if step.Commit? && stage.Inserted? {
      AppendKeepsChain(hash, s.log, stage.final);
    }
    forall q ensures InCharge(hash, s', q) {
      assert InCharge(hash, s, q);
    }
  }

  ghost function Run(hash: Hasher, steps: seq<Step>): System {
    if steps == [] then START else Next(hash, Run(hash, steps[..|steps| - 1]), steps[|steps| - 1])
  }

  /**
   * Under every interleaving of any number of appenders, crashes included, the log is rooted and
   * fully linked, never names a predecessor or an event twice, and the fork check never fires.
   */
  lemma {:induction false} EveryInterleavingKeepsTheChain(hash: Hasher, steps: seq<Step>)
    requires SoundHasher(hash) && forall i :: 0 <= i < |steps| ==> WellDrafted(steps[i])
    ensures var s := Run(hash, steps);
            SystemInv(hash, s) && NoForks(s.log) && forall p :: !StageOf(s, p).Forked?
  {
    if steps != [] {
      var n := |steps| - 1;
      EveryInterleavingKeepsTheChain(hash, steps[..n]);
      StepKeepsInv(hash, Run(hash, steps[..n]), steps[n]);
    }
    GoodChainHasNoForks(hash, Run(hash, steps).log);
    forall p ensures !StageOf(Run(hash, steps), p).Forked? {
      assert InCharge(hash, Run(hash, steps), p);
    }
  }

  /** What was once committed is never changed, moved or lost by later steps. */
  lemma {:induction false} LogOnlyGrows(hash: Hasher, steps: seq<Step>, n: nat)
    requires SoundHasher(hash) && n <= |steps| && forall i :: 0 <= i < |steps| ==> WellDrafted(steps[i])
    ensures Run(hash, steps[..n]).log <= Run(hash, steps).log
    decreases |steps|
  {
    if n == |steps| {
      assert steps[..n] == steps;
    } else {
      var m := |steps| - 1;
      LogOnlyGrows(hash, steps[..m], n);
      assert steps[..m][..n] == steps[..n];
      EveryInterleavingKeepsTheChain(hash, steps[..m]);
      StepKeepsInv(hash, Run(hash, steps[..m]), steps[m]);
    }
  }

  /**
   * Appending an event that is already there never adds anything: an appender whose event has been
   * committed, by itself or by another, is turned away at the probe.
   */
  lemma RepeatedAppendAddsNothing(hash: Hasher, s: System, p: Pid)
    requires SystemInv(hash, s) && StageOf(s, p).Holding?
    requires FindEvent(s.log, StageOf(s, p).draft.eventId).Some?
    ensures var s' := Next(hash, s, Probe(p));
            s'.log == s.log && StageOf(s', p).Idle? && s'.lock.None?
    ensures forall step: Step :: step.pid == p && !step.Probe? && !step.Abandon? ==> Next(hash, s, step) == s
  {
    assert InCharge(hash, s, p);
  }
}
