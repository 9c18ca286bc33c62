/**
 * The hash chain and its verification (sampark/audit/chain.py), and what tampering it reveals.
 */
module Chain {
  import opened Canonical
  import opened Wrappers

  const GENESIS_HASH := "0000000000000000000000000000000000000000000000000000000000000000"

  /** How the chain hashes events; an event that cannot be canonicalized has no hash. */
  type Hasher = Event -> Result<string, PayloadError>

  /** hash_event: the hash of the canonical bytes, always recomputed. */
  function HashEvent(h: Hashing, e: Event): Result<string, PayloadError> {
    match CanonicalBytes(h, e)
    case Err(error) => Err(error)
    case Ok(bytes) => Ok(h.sha256(bytes))
  }

  function CanonicalHasher(h: Hashing): Hasher {
    (e: Event) => HashEvent(h, e)
  }

  ghost predicate GoodEvent(e: Event) {
    Hashable(e) && WellFormedMembers(e.payload)
  }

  /** Every event that can be hashed is, to something other than the genesis value, and only equal events collide. */
  ghost predicate SoundHasher(hash: Hasher) {
    && (forall a :: hash(a).Ok? <==> Hashable(a))
    && (forall a :: hash(a).Ok? ==> hash(a).value != GENESIS_HASH)
    && (forall a, b :: GoodEvent(a) && GoodEvent(b) ==> (hash(a) == hash(b) <==> SameEvent(a, b)))
  }

  /**
   * Hashing canonical bytes is sound, if the hash function has no collisions, nothing hashes to the
   * genesis value, and timestamps are written unambiguously.
   */
  lemma CanonicalHashIsSound(h: Hashing)
    requires forall x, y :: h.sha256(x) == h.sha256(y) ==> x == y
    requires forall x :: h.sha256(x) != GENESIS_HASH
    requires InjectiveTimes(h)
    ensures SoundHasher(CanonicalHasher(h))
  {
    var hash := CanonicalHasher(h);
    forall a ensures hash(a).Ok? <==> Hashable(a) {
      HashableHasBytes(h, a);
    }
    forall a, b | GoodEvent(a) && GoodEvent(b) ensures hash(a) == hash(b) <==> SameEvent(a, b) {
      BytesIdentifyEvents(h, a, b);
      HashableHasBytes(h, a);
      HashableHasBytes(h, b);
    }
  }

  lemma HashableHasBytes(h: Hashing, e: Event)
    ensures CanonicalBytes(h, e).Ok? <==> Hashable(e)
  {
  }

  ghost predicate GoodLog(events: seq<Event>) {
    forall i :: 0 <= i < |events| ==> GoodEvent(events[i])
  }

  /** The hash an event appended next has to name. */
  function HeadHash(hash: Hasher, events: seq<Event>): string {
    if events == [] then GENESIS_HASH
    else
      match hash(events[|events| - 1])
      case Ok(digest) => digest
      case Err(_) => ""
  }

  predicate LinkedAt(hash: Hasher, events: seq<Event>, i: nat)
    requires i < |events|
  {
    events[i].prevHash == HeadHash(hash, events[..i])
  }

  ghost predicate Linked(hash: Hasher, events: seq<Event>) {
    forall i :: 0 <= i < |events| ==> LinkedAt(hash, events, i)
  }

  // ---- Verification ----

  datatype Divergence = Divergence(seqIndex: nat, eventId: string, expectedPrevHash: string, actualPrevHash: string)

  datatype Report = Report(
    eventCount: nat, genesisOk: bool, linkageOk: bool, firstDivergence: Option<Divergence>, headHash: Option<string>)

  ghost predicate FirstBreak(hash: Hasher, events: seq<Event>, i: nat) {
    i < |events| && !LinkedAt(hash, events, i) && forall j :: 0 <= j < i ==> LinkedAt(hash, events, j)
  }

  /** What the report must say of a log whose events can all be hashed. */
  ghost predicate Reports(hash: Hasher, events: seq<Event>, r: Report) {
    && r.eventCount == |events|
    && (r.genesisOk <==> events == [] || events[0].prevHash == GENESIS_HASH)
    && (r.linkageOk <==> Linked(hash, events))
    && (r.firstDivergence.None? <==> Linked(hash, events))
    && (r.firstDivergence.Some? ==>
          var d := r.firstDivergence.value;
          && FirstBreak(hash, events, d.seqIndex)
          && d.eventId == events[d.seqIndex].eventId
          && d.expectedPrevHash == HeadHash(hash, events[..d.seqIndex])
          && d.actualPrevHash == events[d.seqIndex].prevHash)
    && (r.headHash == if events == [] then None else Some(HeadHash(hash, events)))
  }

  lemma PrefixLinks(hash: Hasher, events: seq<Event>, n: nat)
    requires n <= |events|
    ensures forall j :: 0 <= j < n ==> (LinkedAt(hash, events[..n], j) <==> LinkedAt(hash, events, j))
  {
    forall j | 0 <= j < n ensures LinkedAt(hash, events[..n], j) <==> LinkedAt(hash, events, j) {
      assert events[..n][..j] == events[..j];
    }
  }

  /** One more event, looked at against the hash expected so far. */
  lemma ReportsNext(hash: Hasher, events: seq<Event>, i: nat, r: Report, digest: string)
    requires i < |events| && Reports(hash, events[..i], r) && hash(events[i]) == Ok(digest)
    ensures var e, expected := events[i], HeadHash(hash, events[..i]);
            Reports(hash, events[..i + 1],
                    Report(i + 1, r.genesisOk && (i == 0 ==> e.prevHash == GENESIS_HASH),
                           r.linkageOk && e.prevHash == expected,
                           if r.firstDivergence.None? && e.prevHash != expected
                           then Some(Divergence(i, e.eventId, expected, e.prevHash)) else r.firstDivergence,
                           Some(digest)))
  {
    var now := events[..i + 1];
    assert now[..i] == events[..i];
    PrefixLinks(hash, now, i);
    assert Linked(hash, now) <==> Linked(hash, events[..i]) && events[i].prevHash == HeadHash(hash, events[..i]) by {
      assert LinkedAt(hash, now, i) <==> events[i].prevHash == HeadHash(hash, events[..i]);
    }
    if r.firstDivergence.Some? {
      var d := r.firstDivergence.value;
      assert now[..d.seqIndex] == events[..i][..d.seqIndex];
    }
  }

  method VerifyChain(hash: Hasher, events: seq<Event>) returns (result: Result<Report, PayloadError>)
    ensures result.Ok? <==> forall i :: 0 <= i < |events| ==> hash(events[i]).Ok?
    ensures result.Ok? ==> Reports(hash, events, result.value)
  {
    var genesisOk, linkageOk := true, true;
    var firstDivergence: Option<Divergence> := None;
    var expectedPrev := GENESIS_HASH;
    var lastHash: Option<string> := None;
    var i := 0;
    while i < |events|
      invariant 0 <= i <= |events|
      invariant forall j :: 0 <= j < i ==> hash(events[j]).Ok?
      invariant Reports(hash, events[..i], Report(i, genesisOk, linkageOk, firstDivergence, lastHash))
      invariant expectedPrev == HeadHash(hash, events[..i])
    {
      var event := events[i];
      var digest := hash(event);
      if digest.Err? {
        return Err(digest.error);
      }
      ReportsNext(hash, events, i, Report(i, genesisOk, linkageOk, firstDivergence, lastHash), digest.value);
      if i == 0 && event.prevHash != GENESIS_HASH {
        genesisOk := false;
      }
      if event.prevHash != expectedPrev {
        linkageOk := false;
        if firstDivergence.None? {
          firstDivergence := Some(Divergence(i, event.eventId, expectedPrev, event.prevHash));
        }
      }
      expectedPrev, lastHash := digest.value, Some(digest.value);
      i := i + 1;
    }
    assert events[..i] == events;
    return Ok(Report(|events|, genesisOk, linkageOk, firstDivergence, lastHash));
  }

  // ---- Tamper evidence ----

  lemma HeadHashOfGood(hash: Hasher, events: seq<Event>)
    requires SoundHasher(hash) && GoodLog(events)
    ensures HeadHash(hash, events) == GENESIS_HASH <==> events == []
    ensures events != [] ==> hash(events[|events| - 1]) == Ok(HeadHash(hash, events))
  {
  }

  lemma PrefixIsLinked(hash: Hasher, events: seq<Event>, n: nat)
    requires Linked(hash, events) && n <= |events|
    ensures Linked(hash, events[..n])
  {
    forall i | 0 <= i < n ensures LinkedAt(hash, events[..n], i) {
      assert LinkedAt(hash, events, i);
      assert events[..n][..i] == events[..i];
    }
  }

  ghost predicate SameLog(a: seq<Event>, b: seq<Event>) {
    |a| == |b| && forall i :: 0 <= i < |a| ==> SameEvent(a[i], b[i])
  }

  lemma SameLogExtends(a: seq<Event>, b: seq<Event>)
    requires a != [] && b != [] && SameLog(a[..|a| - 1], b[..|b| - 1]) && SameEvent(a[|a| - 1], b[|b| - 1])
    ensures SameLog(a, b)
  {
    forall i | 0 <= i < |a| - 1 ensures SameEvent(a[i], b[i]) {
      assert SameEvent(a[..|a| - 1][i], b[..|b| - 1][i]);
    }
  }

  /** Two logs that verify and share their head hash are the same log, event for event. */
  lemma {:induction false} HeadHashPinsTheLog(hash: Hasher, a: seq<Event>, b: seq<Event>)
    requires SoundHasher(hash) && GoodLog(a) && GoodLog(b) && Linked(hash, a) && Linked(hash, b)
    requires HeadHash(hash, a) == HeadHash(hash, b)
    ensures SameLog(a, b)
  {
    HeadHashOfGood(hash, a);
    HeadHashOfGood(hash, b);
    if a != [] {
      var m, n := |a| - 1, |b| - 1;
      assert SameEvent(a[m], b[n]);
      assert LinkedAt(hash, a, m) && LinkedAt(hash, b, n);
      PrefixIsLinked(hash, a, m);
      PrefixIsLinked(hash, b, n);
      HeadHashPinsTheLog(hash, a[..m], b[..n]);
      SameLogExtends(a, b);
    }
  }

  /**
   * Editing an event that is not the last, leaving its link alone, is found at the very next event;
   * an edit that leaves the same fact behind is no edit at all.
   */
  lemma EditIsFoundNext(hash: Hasher, events: seq<Event>, k: nat, edited: Event)
    requires SoundHasher(hash) && GoodLog(events) && Linked(hash, events)
    requires k + 1 < |events| && GoodEvent(edited) && edited.prevHash == events[k].prevHash
    ensures SameEvent(events[k], edited) ==> Linked(hash, events[k := edited])
    ensures !SameEvent(events[k], edited) ==> FirstBreak(hash, events[k := edited], k + 1)
  {
    var now := events[k := edited];
    forall j | 0 <= j < |events| && j != k + 1 ensures LinkedAt(hash, now, j) {
      assert LinkedAt(hash, events, j);
      if j <= k {
        assert now[..j] == events[..j];
      } else {
        assert now[..j][j - 1] == events[..j][j - 1];
      }
    }
    assert LinkedAt(hash, events, k + 1);
    assert now[..k + 1][k] == edited && events[..k + 1][k] == events[k];
  }

  /** An edit of the last event leaves the log linked; only the head hash gives it away. */
  lemma LastEditShowsInHeadHash(hash: Hasher, events: seq<Event>, edited: Event)
    requires SoundHasher(hash) && GoodLog(events) && Linked(hash, events) && events != []
    requires GoodEvent(edited) && edited.prevHash == events[|events| - 1].prevHash
    ensures var now := events[|events| - 1 := edited];
            Linked(hash, now) && (HeadHash(hash, now) == HeadHash(hash, events)
                                  <==> SameEvent(events[|events| - 1], edited))
  {
    var n := |events| - 1;
    var now := events[n := edited];
    forall j | 0 <= j < |now| ensures LinkedAt(hash, now, j) {
      assert LinkedAt(hash, events, j);
      assert now[..j] == events[..j];
    }
  }

  /** So does a truncation: every prefix verifies, and none but the whole has the log's head hash. */
  lemma TruncationShowsInHeadHash(hash: Hasher, events: seq<Event>, n: nat)
    requires SoundHasher(hash) && GoodLog(events) && Linked(hash, events) && n <= |events|
    ensures Linked(hash, events[..n]) && (HeadHash(hash, events[..n]) == HeadHash(hash, events) <==> n == |events|)
  {
    PrefixIsLinked(hash, events, n);
    assert events[..|events|] == events;
    if HeadHash(hash, events[..n]) == HeadHash(hash, events) {
      HeadHashPinsTheLog(hash, events[..n], events);
    }
  }
}
