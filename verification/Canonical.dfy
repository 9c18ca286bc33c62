/**
 * Canonical bytes (sampark/audit/canonical.py): dictionaries are printed with sorted keys, so two
 * values have the same text exactly when they are equal as values, whatever order their members
 * were inserted in.
 */
module Canonical {
  import opened Json
  import opened Wrappers

  // ---- Dictionaries ----

  function Lookup(m: Members, key: string): Option<Json> {
    match m
    case NoMembers => None
    case Member(k, v, rest) => if k == key then Some(v) else Lookup(rest, key)
  }

  /** The values json.dumps is given are Python dictionaries: no key occurs twice, at any depth. */
  ghost predicate WellFormed(j: Json) {
    match j
    case Arr(items) => WellFormedItems(items)
    case Obj(members) => WellFormedMembers(members)
    case _ => true
  }

  ghost predicate WellFormedItems(items: Items) {
    items.Item? ==> WellFormed(items.head) && WellFormedItems(items.tail)
  }

  ghost predicate WellFormedMembers(m: Members) {
    m.Member? ==> Lookup(m.rest, m.key).None? && WellFormed(m.value) && WellFormedMembers(m.rest)
  }

  /** Equality of values: dictionaries by their entries, everything else as written. */
  ghost predicate Same(x: Json, y: Json)
    decreases x
  {
    match x
    case Arr(a) => y.Arr? && SameItems(a, y.items)
    case Obj(a) => y.Obj? && Within(a, y.members) && forall k :: Lookup(y.members, k).Some? ==> Lookup(a, k).Some?
    case _ => x == y
  }

  ghost predicate SameItems(a: Items, b: Items)
    decreases a
  {
    match a
    case NoItems => b.NoItems?
    case Item(head, tail) => b.Item? && Same(head, b.head) && SameItems(tail, b.tail)
  }

  /** Every entry of `a` is an entry of `b`. */
  ghost predicate Within(a: Members, b: Members)
    decreases a
  {
    a.Member? ==> Lookup(b, a.key).Some? && Same(a.value, Lookup(b, a.key).value) && Within(a.rest, b)
  }

  // ---- Sorting by key ----

  /** Code point order, as Python compares strings. */
  predicate KeyLe(a: string, b: string) {
    a == "" || (b != "" && (a[0] < b[0] || (a[0] == b[0] && KeyLe(a[1..], b[1..]))))
  }

  function InsertMember(key: string, value: Json, m: Members): Members {
    match m
    case NoMembers => Member(key, value, NoMembers)
    case Member(k, v, rest) => if KeyLe(key, k) then Member(key, value, m)
      else Member(k, v, InsertMember(key, value, rest))
  }

  /** The value with the members of every dictionary sorted by key. */
  function Canon(j: Json): Json {
    match j
    case Arr(items) => Arr(CanonItems(items))
    case Obj(members) => Obj(CanonMembers(members))
    case _ => j
  }

  function CanonItems(items: Items): Items {
    match items
    case NoItems => NoItems
    case Item(head, tail) => Item(Canon(head), CanonItems(tail))
  }

  function CanonMembers(m: Members): Members {
    match m
    case NoMembers => NoMembers
    case Member(key, value, rest) => InsertMember(key, Canon(value), CanonMembers(rest))
  }

  lemma {:induction false} KeyLeTotal(a: string, b: string)
    ensures KeyLe(a, b) || KeyLe(b, a)
    ensures KeyLe(a, b) && KeyLe(b, a) ==> a == b
  {
    if a != "" && b != "" {
      KeyLeTotal(a[1..], b[1..]);
      if KeyLe(a, b) && KeyLe(b, a) {
        assert a == [a[0]] + a[1..] && b == [b[0]] + b[1..];
      }
    }
  }

  lemma {:induction false} KeyLeTransitive(a: string, b: string, c: string)
    requires KeyLe(a, b) && KeyLe(b, c)
    ensures KeyLe(a, c)
  {
    if a != "" && a[0] == b[0] && b[0] == c[0] {
      KeyLeTransitive(a[1..], b[1..], c[1..]);
    }
  }

  // ---- Sorted dictionaries are determined by their entries ----

  ghost predicate Before(key: string, m: Members) {
    m.Member? ==> KeyLe(key, m.key) && key != m.key && Before(key, m.rest)
  }

  ghost predicate StrictlySorted(m: Members) {
    m.Member? ==> Before(m.key, m.rest) && StrictlySorted(m.rest)
  }

  lemma {:induction false} BeforeIsAbsent(key: string, m: Members)
    requires Before(key, m)
    ensures Lookup(m, key).None?
  {
    if m.Member? {
      BeforeIsAbsent(key, m.rest);
    }
  }

  lemma {:induction false} BeforeAll(a: string, b: string, m: Members)
    requires KeyLe(a, b) && a != b && Before(b, m)
    ensures Before(a, m)
  {
    if m.Member? {
      KeyLeTransitive(a, b, m.key);
      KeyLeTotal(a, b);
      if a == m.key {
        KeyLeTotal(a, b);
      }
      BeforeAll(a, b, m.rest);
    }
  }

  lemma {:induction false} BeforeInserted(a: string, key: string, value: Json, m: Members)
    requires KeyLe(a, key) && a != key && Before(a, m)
    ensures Before(a, InsertMember(key, value, m))
  {
    if m.Member? && !KeyLe(key, m.key) {
      BeforeInserted(a, key, value, m.rest);
    }
  }

  lemma {:induction false} InsertKeeps(key: string, value: Json, m: Members)
    requires StrictlySorted(m) && Lookup(m, key).None?
    ensures StrictlySorted(InsertMember(key, value, m))
    ensures forall k :: Lookup(InsertMember(key, value, m), k) == if k == key then Some(value) else Lookup(m, k)
  {
    if m.Member? {
      if KeyLe(key, m.key) {
        BeforeAll(key, m.key, m.rest);
      } else {
        KeyLeTotal(key, m.key);
        InsertKeeps(key, value, m.rest);
        BeforeInserted(m.key, key, value, m.rest);
      }
    }
  }

  lemma {:induction false} SortedByEntries(a: Members, b: Members)
    requires StrictlySorted(a) && StrictlySorted(b) && forall k :: Lookup(a, k) == Lookup(b, k)
    ensures a == b
  {
    assert a.Member? ==> Lookup(a, a.key).Some?;
    assert b.Member? ==> Lookup(b, b.key).Some?;
    if a.Member? {
      BeforeIsAbsent(a.key, a.rest);
      BeforeIsAbsent(b.key, b.rest);
      FirstKeys(a, b);
      forall k ensures Lookup(a.rest, k) == Lookup(b.rest, k) {
        assert Lookup(a, k) == Lookup(b, k);
      }
      SortedByEntries(a.rest, b.rest);
    }
  }

  lemma FirstKeys(a: Members, b: Members)
    requires a.Member? && b.Member? && StrictlySorted(a) && StrictlySorted(b)
             && forall k :: Lookup(a, k) == Lookup(b, k)
    ensures a.key == b.key
  {
    assert Lookup(a, a.key).Some? && Lookup(b, b.key).Some?;
    if a.key != b.key {
      PresentIsAfter(b.key, a);
      PresentIsAfter(a.key, b);
      KeyLeTotal(a.key, b.key);
    }
  }

  lemma {:induction false} PresentIsAfter(key: string, m: Members)
    requires m.Member? && StrictlySorted(m) && Lookup(m, key).Some? && key != m.key
    ensures KeyLe(m.key, key)
  {
    if m.rest.Member? && m.rest.key != key {
      PresentIsAfter(key, m.rest);
      KeyLeTransitive(m.key, m.rest.key, key);
    }
  }

  // ---- Canonical forms ----

  lemma {:induction false} CanonEntries(m: Members)
    requires WellFormedMembers(m)
    ensures StrictlySorted(CanonMembers(m))
    ensures forall k :: Lookup(CanonMembers(m), k)
                        == match Lookup(m, k) case None => None case Some(v) => Some(Canon(v))
  {
    if m.Member? {
      CanonEntries(m.rest);
      InsertKeeps(m.key, Canon(m.value), CanonMembers(m.rest));
    }
  }

  lemma {:induction false} LookupSmaller(m: Members, k: string)
    ensures Lookup(m, k).Some? ==> (WellFormedMembers(m) ==> WellFormed(Lookup(m, k).value))
  {
    if m.Member? {
      LookupSmaller(m.rest, k);
    }
  }

  /** Two values have the same canonical form exactly when they are the same value. */
  lemma {:induction false} CanonDecidesSame(x: Json, y: Json)
    requires WellFormed(x) && WellFormed(y)
    ensures Canon(x) == Canon(y) <==> Same(x, y)
    decreases x
  {
    if x.Arr? && y.Arr? {
      CanonItemsDecide(x.items, y.items);
    } else if x.Obj? && y.Obj? {
      var a, b := x.members, y.members;
      CanonEntries(a);
      CanonEntries(b);
      WithinDecides(a, b);
      if Same(x, y) {
        forall k ensures Lookup(CanonMembers(a), k) == Lookup(CanonMembers(b), k) {
          assert Agrees(a, b, k) && (Lookup(b, k).Some? ==> Lookup(a, k).Some?);
        }
        SortedByEntries(CanonMembers(a), CanonMembers(b));
      }
      if Canon(x) == Canon(y) {
        forall k ensures Agrees(a, b, k) && (Lookup(b, k).Some? ==> Lookup(a, k).Some?) {
          assert Lookup(CanonMembers(a), k) == Lookup(CanonMembers(b), k);
        }
      }
    }
  }

  lemma {:induction false} CanonItemsDecide(a: Items, b: Items)
    requires WellFormedItems(a) && WellFormedItems(b)
    ensures CanonItems(a) == CanonItems(b) <==> SameItems(a, b)
    decreases a
  {
    if a.Item? && b.Item? {
      CanonDecidesSame(a.head, b.head);
      CanonItemsDecide(a.tail, b.tail);
    }
  }

  ghost predicate Agrees(a: Members, b: Members, k: string) {
    Lookup(a, k).Some? ==> Lookup(b, k).Some? && Canon(Lookup(a, k).value) == Canon(Lookup(b, k).value)
  }

  lemma {:induction false} WithinDecides(a: Members, b: Members)
    requires WellFormedMembers(a) && WellFormedMembers(b)
    ensures Within(a, b) <==> forall k :: Agrees(a, b, k)
    decreases a
  {
    if a.Member? {
      WithinDecides(a.rest, b);
      LookupSmaller(b, a.key);
      if Lookup(b, a.key).Some? {
        CanonDecidesSame(a.value, Lookup(b, a.key).value);
      }
      if forall k :: Agrees(a, b, k) {
        assert Agrees(a, b, a.key);
        forall k ensures Agrees(a.rest, b, k) {
          assert Agrees(a, b, k);
        }
      }
      if Within(a, b) {
        forall k ensures Agrees(a, b, k) {
          assert Agrees(a.rest, b, k);
        }
      }
    }
  }

  // ---- The canonical text ----

  lemma {:induction false} CanonIsPrintable(j: Json)
    requires Printable(j)
    ensures Printable(Canon(j))
    decreases j
  {
    match j
    case Arr(items) => CanonItemsPrintable(items);
    case Obj(members) => CanonMembersPrintable(members);
    case _ =>
  }

  lemma {:induction false} CanonItemsPrintable(items: Items)
    requires PrintableItems(items)
    ensures PrintableItems(CanonItems(items))
    decreases items
  {
    if items.Item? {
      CanonIsPrintable(items.head);
      CanonItemsPrintable(items.tail);
    }
  }

  lemma {:induction false} CanonMembersPrintable(m: Members)
    requires PrintableMembers(m)
    ensures PrintableMembers(CanonMembers(m))
    decreases m
  {
    if m.Member? {
      CanonIsPrintable(m.value);
      CanonMembersPrintable(m.rest);
      InsertedPrintable(m.key, Canon(m.value), CanonMembers(m.rest));
    }
  }

  lemma {:induction false} InsertedPrintable(key: string, value: Json, m: Members)
    requires Printable(value) && PrintableMembers(m)
    ensures PrintableMembers(InsertMember(key, value, m))
  {
    if m.Member? && !KeyLe(key, m.key) {
      InsertedPrintable(key, value, m.rest);
    }
  }

  /** json.dumps(value, sort_keys=True, separators=(",", ":"), ensure_ascii=True). */
  function Dumps(j: Json): string
    requires Printable(j)
  {
    CanonIsPrintable(j);
    Print(Canon(j), "")
  }

  /** Reading the canonical text gives the canonical form, and nothing is left over. */
  lemma ReadInvertsDumps(j: Json)
    requires Printable(j)
    ensures Read(Dumps(j)) == Some((Canon(j), ""))
  {
    CanonIsPrintable(j);
    ReadInvertsPrint(Canon(j), "");
  }

  /** Canonical texts are unambiguous: equal texts, equal values, and conversely. */
  lemma DumpsIsUnambiguous(x: Json, y: Json)
    requires Printable(x) && Printable(y) && WellFormed(x) && WellFormed(y)
    ensures Dumps(x) == Dumps(y) <==> Same(x, y)
  {
    ReadInvertsDumps(x);
    ReadInvertsDumps(y);
    CanonDecidesSame(x, y);
  }

  // ---- Payloads ----

  datatype PayloadError = MissingVersion | UnknownVersion | UnsafePayload

  predicate SafeChar(c: char) {
    'A' <= c <= 'Z' || 'a' <= c <= 'z' || '0' <= c <= '9' || c in {'_', '.', ':', '+', '-'}
  }

  predicate AllSafe(s: string) {
    forall i :: 0 <= i < |s| ==> SafeChar(s[i])
  }

  /** The identifier pattern.  Its end anchor also matches in front of one final newline. */
  predicate SafeText(s: string) {
    AllSafe(s) || (s != "" && s[|s| - 1] == '\n' && AllSafe(s[..|s| - 1]))
  }

  /** The recursive walk over a payload: identifiers, integers, booleans, null, lists and dictionaries only. */
  predicate SafeValue(j: Json) {
    match j
    case Null => true
    case Bool(_) => true
    case Int(_) => true
    case Str(s) => SafeText(s)
    case Arr(items) => SafeItems(items)
    case Obj(members) => SafeMembers(members)
    case Float(_) => false
    case Unsupported => false
  }

  predicate SafeItems(items: Items) {
    items.Item? ==> SafeValue(items.head) && SafeItems(items.tail)
  }

  predicate SafeMembers(m: Members) {
    m.Member? ==> SafeText(m.key) && SafeValue(m.value) && SafeMembers(m.rest)
  }

  function ValidatePayload(payload: Members): Option<PayloadError> {
    if Lookup(payload, "v").None? then Some(MissingVersion)
    else if !SafeMembers(payload) then Some(UnsafePayload)
    else None
  }

  /** Python counts True as the integer 1, so it selects the same canonicalizer. */
  predicate IsVersionOne(j: Json) {
    j == Int(1) || j == Bool(true)
  }

  lemma {:induction false} SafeIsPrintable(j: Json)
    requires SafeValue(j)
    ensures Printable(j)
    decreases j
  {
    match j
    case Arr(items) => SafeItemsPrintable(items);
    case Obj(members) => SafeMembersPrintable(members);
    case _ =>
  }

  lemma {:induction false} SafeItemsPrintable(items: Items)
    requires SafeItems(items)
    ensures PrintableItems(items)
    decreases items
  {
    if items.Item? {
      SafeIsPrintable(items.head);
      SafeItemsPrintable(items.tail);
    }
  }

  lemma {:induction false} SafeMembersPrintable(m: Members)
    requires SafeMembers(m)
    ensures PrintableMembers(m)
    decreases m
  {
    if m.Member? {
      SafeIsPrintable(m.value);
      SafeMembersPrintable(m.rest);
    }
  }

  /** The one gap in "no free text": a newline can enter a payload, but only as the last character. */
  lemma NewlineEscapesThePattern(s: string)
    requires SafeText(s)
    ensures '\n' in s <==> s != "" && s[|s| - 1] == '\n'
    ensures forall i :: 0 <= i < |s| - 1 ==> s[i] != '\n'
    ensures SafeText("grant\n") && !SafeText("grant\n\n") && !SafeText("\ngrant")
  {
    assert "grant\n"[..5] == "grant" && AllSafe("grant");
    assert !SafeChar('\n');
    assert "grant\n\n"[5] == '\n' && "grant\n\n"[..6][5] == '\n';
    assert "\ngrant"[0] == '\n';
  }

  // ---- Events ----

  datatype Event = Event(
    eventId: string, eventType: string, occurredAt: int, prevHash: string,
    agentSignature: Option<string>, reasonCode: Option<string>, payload: Members)

  /** How instants are written (fixed-width UTC with six fractional digits) and texts are hashed. */
  datatype Hashing = Hashing(isoUtcMicros: int -> string, sha256: string -> string)

  function OrNull(s: Option<string>): Json {
    if s.Some? then Str(s.value) else Null
  }

  type Field = (string, Json)

  /** A dictionary display, its entries in the order written. */
  function DictOf(fields: seq<Field>): Members {
    if fields == [] then NoMembers else Member(fields[0].0, fields[0].1, DictOf(fields[1..]))
  }

  function PreimageFields(h: Hashing, e: Event): seq<Field> {
    [("event_id", Str(e.eventId)),
     ("event_type", Str(e.eventType)),
     ("occurred_at", Str(h.isoUtcMicros(e.occurredAt))),
     ("prev_hash", Str(e.prevHash)),
     ("agent_signature", OrNull(e.agentSignature)),
     ("reason_code", OrNull(e.reasonCode)),
     ("payload", Obj(e.payload))]
  }

  function Preimage(h: Hashing, e: Event): Json {
    Obj(DictOf(PreimageFields(h, e)))
  }

  ghost predicate DistinctKeys(fields: seq<Field>) {
    forall i, j :: 0 <= i < j < |fields| ==> fields[i].0 != fields[j].0
  }

  lemma {:induction false} DictOfAbsent(fields: seq<Field>, key: string)
    requires forall i :: 0 <= i < |fields| ==> fields[i].0 != key
    ensures Lookup(DictOf(fields), key).None?
  {
    if fields != [] {
      DictOfAbsent(fields[1..], key);
    }
  }

  lemma {:induction false} DictOfIsWellFormed(fields: seq<Field>)
    requires DistinctKeys(fields) && forall i :: 0 <= i < |fields| ==> WellFormed(fields[i].1) && Printable(fields[i].1)
    ensures WellFormedMembers(DictOf(fields)) && PrintableMembers(DictOf(fields))
  {
    if fields != [] {
      DictOfIsWellFormed(fields[1..]);
      DictOfAbsent(fields[1..], fields[0].0);
    }
  }

  lemma {:induction false} DictOfLookup(fields: seq<Field>, i: nat)
    requires DistinctKeys(fields) && i < |fields|
    ensures Lookup(DictOf(fields), fields[i].0) == Some(fields[i].1)
  {
    if i > 0 {
      assert fields[1..][i - 1] == fields[i];
      DictOfLookup(fields[1..], i - 1);
    }
  }

  ghost predicate SameKeys(a: seq<Field>, b: seq<Field>) {
    |a| == |b| && forall i :: 0 <= i < |a| ==> a[i].0 == b[i].0
  }

  lemma {:induction false} WithinByField(a: seq<Field>, b: seq<Field>, skip: nat)
    requires SameKeys(a, b) && DistinctKeys(b) && skip <= |a|
    ensures Within(DictOf(a[skip..]), DictOf(b)) <==> forall i :: skip <= i < |a| ==> Same(a[i].1, b[i].1)
    decreases |a| - skip
  {
    if skip < |a| {
      assert a[skip..][1..] == a[skip + 1..];
      WithinByField(a, b, skip + 1);
      DictOfLookup(b, skip);
    }
  }

  /** Dictionary displays with the same keys are the same value exactly when they agree field by field. */
  lemma SameByField(a: seq<Field>, b: seq<Field>)
    requires SameKeys(a, b) && DistinctKeys(a)
    ensures Same(Obj(DictOf(a)), Obj(DictOf(b))) <==> forall i :: 0 <= i < |a| ==> Same(a[i].1, b[i].1)
  {
    WithinByField(a, b, 0);
    assert a[0..] == a;
    forall k | Lookup(DictOf(b), k).Some? ensures Lookup(DictOf(a), k).Some? {
      if forall i :: 0 <= i < |b| ==> b[i].0 != k {
        DictOfAbsent(b, k);
      } else {
        var i :| 0 <= i < |b| && b[i].0 == k;
        DictOfLookup(a, i);
      }
    }
  }

  predicate Hashable(e: Event) {
    var v := Lookup(e.payload, "v");
    v.Some? && IsVersionOne(v.value) && ValidatePayload(e.payload).None?
  }

  lemma PreimageKeysDiffer(h: Hashing, e: Event)
    ensures DistinctKeys(PreimageFields(h, e))
  {
    var f := PreimageFields(h, e);
    assert |f[0].0| == 8 && |f[1].0| == 10 && |f[2].0| == 11 && |f[3].0| == 9 && |f[4].0| == 15 && |f[5].0| == 11
           && |f[6].0| == 7;
    assert f[2].0[0] == 'o' && f[5].0[0] == 'r';
  }

  lemma {:induction false} PrintableFields(fields: seq<Field>)
    requires forall i :: 0 <= i < |fields| ==> Printable(fields[i].1)
    ensures PrintableMembers(DictOf(fields))
  {
    if fields != [] {
      PrintableFields(fields[1..]);
    }
  }

  lemma PreimageIsPrintable(h: Hashing, e: Event)
    requires Hashable(e)
    ensures Printable(Preimage(h, e))
  {
    SafeMembersPrintable(e.payload);
    PrintableFields(PreimageFields(h, e));
  }

  function CanonicalBytes(h: Hashing, e: Event): Result<string, PayloadError> {
    var v := Lookup(e.payload, "v");
    if v.None? || !IsVersionOne(v.value) then Err(UnknownVersion)
    else if ValidatePayload(e.payload).Some? then Err(ValidatePayload(e.payload).value)
    else
      PreimageIsPrintable(h, e);
      Ok(Dumps(Preimage(h, e)))
  }

  /** The same fact: every field equal, the payload up to the order its entries were inserted in. */
  ghost predicate SameEvent(a: Event, b: Event) {
    a.(payload := b.payload) == b && Same(Obj(a.payload), Obj(b.payload))
  }

  ghost predicate InjectiveTimes(h: Hashing) {
    forall t, u :: h.isoUtcMicros(t) == h.isoUtcMicros(u) ==> t == u
  }

  lemma FieldsSame(h: Hashing, a: Event, b: Event)
    requires InjectiveTimes(h)
    ensures (forall i :: 0 <= i < 7 ==> Same(PreimageFields(h, a)[i].1, PreimageFields(h, b)[i].1)) <==> SameEvent(a, b)
  {
    var x, y := PreimageFields(h, a), PreimageFields(h, b);
    assert (forall i :: 0 <= i < 7 ==> Same(x[i].1, y[i].1)) <==>
           Same(x[0].1, y[0].1) && Same(x[1].1, y[1].1) && Same(x[2].1, y[2].1) && Same(x[3].1, y[3].1)
           && Same(x[4].1, y[4].1) && Same(x[5].1, y[5].1) && Same(x[6].1, y[6].1);
  }

  lemma PreimagesSame(h: Hashing, a: Event, b: Event)
    requires InjectiveTimes(h)
    ensures Same(Preimage(h, a), Preimage(h, b)) <==> SameEvent(a, b)
  {
    PreimageKeysDiffer(h, a);
    SameByField(PreimageFields(h, a), PreimageFields(h, b));
    FieldsSame(h, a, b);
  }

  lemma PreimageIsWellFormed(h: Hashing, e: Event)
    requires Hashable(e) && WellFormedMembers(e.payload)
    ensures WellFormed(Preimage(h, e)) && Printable(Preimage(h, e))
  {
    SafeMembersPrintable(e.payload);
    PreimageKeysDiffer(h, e);
    DictOfIsWellFormed(PreimageFields(h, e));
  }

  /** The bytes two events are hashed from are equal exactly when the events say the same. */
  lemma BytesIdentifyEvents(h: Hashing, a: Event, b: Event)
    requires InjectiveTimes(h) && Hashable(a) && Hashable(b)
    requires WellFormedMembers(a.payload) && WellFormedMembers(b.payload)
    ensures CanonicalBytes(h, a) == CanonicalBytes(h, b) <==> SameEvent(a, b)
  {
    PreimageIsWellFormed(h, a);
    PreimageIsWellFormed(h, b);
    PreimagesSame(h, a, b);
    DumpsIsUnambiguous(Preimage(h, a), Preimage(h, b));
  }
}
