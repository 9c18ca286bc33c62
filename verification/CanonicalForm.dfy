/**
 * What the canonical bytes look like (sampark/audit/canonical.py): keys in ascending order at every
 * depth, printable ASCII only, an event's seven fields in a fixed order, and what a payload may hold.
 */
module CanonicalForm {
  import opened Canonical
  import opened Json
  import opened Wrappers

  // ---- Order of keys ----

  /** a comes before b: it is a proper beginning of b, or has the smaller character where they first differ. */
  ghost predicate Precedes(a: string, b: string) {
    exists i: nat :: DiffersAt(a, b, i) && (i == |a| || a[i] < b[i])
  }

  ghost predicate DiffersAt(a: string, b: string, i: nat) {
    i <= |a| && i < |b| && a[..i] == b[..i]
  }

  lemma FirstIsCommon(a: string, b: string, i: nat)
    requires DiffersAt(a, b, i) && i > 0
    ensures a != "" && b != "" && a[0] == b[0]
  {
    assert a[..i][0] == b[..i][0];
  }

  lemma {:induction false} KeyLeMeans(a: string, b: string)
    ensures KeyLe(a, b) <==> a == b || Precedes(a, b)
  {
    if a != "" && b != "" && a[0] == b[0] {
      KeyLeMeans(a[1..], b[1..]);
      assert a == [a[0]] + a[1..] && b == [b[0]] + b[1..];
      PrecedesBehind(a, b);
    } else {
      if Precedes(a, b) {
        var i: nat :| DiffersAt(a, b, i) && (i == |a| || a[i] < b[i]);
        if i > 0 {
          FirstIsCommon(a, b, i);
        }
      }
      if KeyLe(a, b) && a != b {
        assert DiffersAt(a, b, 0);
      }
    }
  }

  /** A common first character changes nothing. */
  lemma PrecedesBehind(a: string, b: string)
    requires a != "" && b != "" && a[0] == b[0]
    ensures Precedes(a, b) <==> Precedes(a[1..], b[1..])
  {
    if Precedes(a, b) {
      var i: nat :| DiffersAt(a, b, i) && (i == |a| || a[i] < b[i]);
      assert i > 0;
      assert a[1..][..i - 1] == a[..i][1..] && b[1..][..i - 1] == b[..i][1..];
      assert DiffersAt(a[1..], b[1..], i - 1);
    }
    if Precedes(a[1..], b[1..]) {
      var i: nat :| DiffersAt(a[1..], b[1..], i) && (i == |a[1..]| || a[1..][i] < b[1..][i]);
      assert a[..i + 1] == [a[0]] + a[1..][..i] && b[..i + 1] == [b[0]] + b[1..][..i];
      assert DiffersAt(a, b, i + 1);
    }
  }

  function KeysOf(m: Members): seq<string> {
    match m
    case NoMembers => []
    case Member(key, _, rest) => [key] + KeysOf(rest)
  }

  ghost predicate KeysAscend(m: Members) {
    forall i, j :: 0 <= i < j < |KeysOf(m)| ==> Precedes(KeysOf(m)[i], KeysOf(m)[j])
  }

  /** The keys of every dictionary in it ascend. */
  ghost predicate Ascending(j: Json) {
    match j
    case Arr(items) => AscendingItems(items)
    case Obj(members) => KeysAscend(members) && AscendingValues(members)
    case _ => true
  }

  ghost predicate AscendingItems(items: Items) {
    items.Item? ==> Ascending(items.head) && AscendingItems(items.tail)
  }

  ghost predicate AscendingValues(m: Members) {
    m.Member? ==> Ascending(m.value) && AscendingValues(m.rest)
  }

  lemma {:induction false} BeforeEachKey(key: string, m: Members)
    requires Before(key, m)
    ensures forall i :: 0 <= i < |KeysOf(m)| ==> Precedes(key, KeysOf(m)[i])
  {
    if m.Member? {
      KeyLeMeans(key, m.key);
      BeforeEachKey(key, m.rest);
    }
  }

  lemma {:induction false} SortedKeysAscend(m: Members)
    requires StrictlySorted(m)
    ensures KeysAscend(m)
  {
    if m.Member? {
      BeforeEachKey(m.key, m.rest);
      SortedKeysAscend(m.rest);
      forall i, j | 0 <= i < j < |KeysOf(m)| ensures Precedes(KeysOf(m)[i], KeysOf(m)[j]) {
        assert KeysOf(m)[j] == KeysOf(m.rest)[j - 1];
        if i > 0 {
          assert KeysOf(m)[i] == KeysOf(m.rest)[i - 1];
        }
      }
    }
  }

  lemma {:induction false} InsertedAscends(key: string, value: Json, m: Members)
    requires Ascending(value) && AscendingValues(m)
    ensures AscendingValues(InsertMember(key, value, m))
  {
    if m.Member? && !KeyLe(key, m.key) {
      InsertedAscends(key, value, m.rest);
    }
  }

  /** The canonical form of a value has its keys in ascending order, however deep. */
  lemma {:induction false} CanonAscends(j: Json)
    requires WellFormed(j)
    ensures Ascending(Canon(j))
    decreases j
  {
    match j
    case Arr(items) => CanonItemsAscend(items);
    case Obj(members) =>
      CanonEntries(members);
      SortedKeysAscend(CanonMembers(members));
      CanonValuesAscend(members);
    case _ =>
  }

  lemma {:induction false} CanonItemsAscend(items: Items)
    requires WellFormedItems(items)
    ensures AscendingItems(CanonItems(items))
    decreases items
  {
    if items.Item? {
      CanonAscends(items.head);
      CanonItemsAscend(items.tail);
    }
  }

  lemma {:induction false} CanonValuesAscend(m: Members)
    requires WellFormedMembers(m)
    ensures AscendingValues(CanonMembers(m))
    decreases m
  {
    if m.Member? {
      CanonAscends(m.value);
      CanonValuesAscend(m.rest);
      InsertedAscends(m.key, Canon(m.value), CanonMembers(m.rest));
    }
  }

  // ---- The text ----

  /** Printable ASCII. */
  ghost predicate Plain(s: string) {
    forall i :: 0 <= i < |s| ==> ' ' <= s[i] <= '~'
  }

  ghost predicate NoSpace(s: string) {
    ' ' !in s
  }

  lemma HexIsPlain(n: nat)
    requires n < 0x10000
    ensures Plain(Hex4(n)) && NoSpace(Hex4(n))
  {
    assert forall d: nat :: d < 16 ==> ' ' < Digit(d) <= '~';
  }

  lemma EscapeIsPlain(c: char)
    ensures Plain(Escape(c))
    ensures c != ' ' ==> NoSpace(Escape(c))
  {
    if ShortEscape(c).None? && !(' ' <= c <= '~') {
      if (c as int) < 0x10000 {
        HexIsPlain(c as int);
      } else {
        var v := c as int - 0x10000;
        HexIsPlain(0xd800 + v / 1024);
        HexIsPlain(0xdc00 + v % 1024);
      }
      hide Hex4;
    }
  }

  lemma {:induction false} CharsArePlain(s: string, t: string)
    requires Plain(t)
    ensures Plain(PrintChars(s, t))
  {
    if s != "" {
      EscapeIsPlain(s[0]);
      CharsArePlain(s[1..], t);
      hide Escape;
    }
  }

  lemma {:induction false} DigitsArePlain(n: nat, t: string)
    requires Plain(t)
    ensures Plain(PrintNat(n, t))
  {
    if n >= 10 {
      DigitsArePlain(n / 10, [Digit(n % 10)] + t);
    }
  }

  /** Whatever the strings hold, the text is printable ASCII. */
  lemma {:induction false} TextIsPlain(j: Json, t: string)
    requires Printable(j) && Plain(t)
    ensures Plain(Print(j, t))
    decreases j
  {
    match j
    case Null =>
    case Bool(_) =>
    case Int(n) => DigitsArePlain(if n < 0 then 0 - n else n, t);
    case Str(s) => CharsArePlain(s, t);
    case Arr(NoItems) =>
    case Arr(Item(head, tail)) =>
      ItemsArePlain(tail, t);
      TextIsPlain(head, PrintItems(tail, t));
    case Obj(NoMembers) =>
    case Obj(Member(key, value, rest)) =>
      MembersArePlain(rest, t);
      TextIsPlain(value, PrintMembers(rest, t));
      CharsArePlain(key, [':'] + Print(value, PrintMembers(rest, t)));
  }

  lemma {:induction false} ItemsArePlain(items: Items, t: string)
    requires PrintableItems(items) && Plain(t)
    ensures Plain(PrintItems(items, t))
    decreases items
  {
    if items.Item? {
      ItemsArePlain(items.tail, t);
      TextIsPlain(items.head, PrintItems(items.tail, t));
    }
  }

  lemma {:induction false} MembersArePlain(m: Members, t: string)
    requires PrintableMembers(m) && Plain(t)
    ensures Plain(PrintMembers(m, t))
    decreases m
  {
    if m.Member? {
      MembersArePlain(m.rest, t);
      TextIsPlain(m.value, PrintMembers(m.rest, t));
      CharsArePlain(m.key, [':'] + Print(m.value, PrintMembers(m.rest, t)));
    }
  }

  /** Escapes are in lower-case hexadecimal, and in pairs beyond the basic plane. */
  lemma KnownEscapes()
    ensures Escape('\U{e9}') == "\\u00e9" && Escape('\U{1f600}') == "\\ud83d\\ude00"
  {
    KnownHex();
    hide Hex4;
    assert '\U{e9}' as int == 0xe9 && '\U{1f600}' as int == 0x1f600;
  }

  lemma KnownHex()
    ensures Hex4(0xe9) == "00e9" && Hex4(0xd83d) == "d83d" && Hex4(0xde00) == "de00"
  {
  }

  /** Some characters have a short escape; every other printable one stands for itself. */
  lemma KnownShortEscapes(c: char)
    ensures Escape('\n') == "\\n" && Escape('\r') == "\\r" && Escape('\t') == "\\t"
    ensures Escape('\U{8}') == "\\b" && Escape('\U{c}') == "\\f"
    ensures Escape('\"') == "\\\"" && Escape('\\') == "\\\\"
    ensures ' ' <= c <= '~' && c != '\"' && c != '\\' ==> Escape(c) == [c]
  {
    hide Hex4;
  }

  /** A number starts with its leading digit, and nothing but a negative one with a sign. */
  lemma {:induction false} NumbersStart(n: nat, t: string)
    ensures PrintNat(n, t) != "" && '0' <= PrintNat(n, t)[0] <= '9'
    ensures PrintNat(n, t)[0] == '0' <==> n == 0
    ensures Print(Int(n), t) == PrintNat(n, t)
    ensures n > 0 ==> Print(Int(0 - n), t) == "-" + PrintNat(n, t)
  {
    if n >= 10 {
      NumbersStart(n / 10, [Digit(n % 10)] + t);
    }
  }

  /** Printable ASCII throughout, with the keys of every dictionary in ascending order. */
  lemma DumpsIsCanonical(j: Json)
    requires Printable(j) && WellFormed(j)
    ensures Ascending(Canon(j)) && Plain(Dumps(j)) && Read(Dumps(j)) == Some((Canon(j), ""))
  {
    CanonAscends(j);
    CanonIsPrintable(j);
    TextIsPlain(Canon(j), "");
    ReadInvertsDumps(j);
  }

  // ---- The strings in a value ----

  /** Every string and every key in it, at any depth. */
  ghost function TextsOf(j: Json): set<string> {
    match j
    case Str(s) => {s}
    case Arr(items) => TextsOfItems(items)
    case Obj(members) => TextsOfMembers(members)
    case _ => {}
  }

  ghost function TextsOfItems(items: Items): set<string> {
    match items
    case NoItems => {}
    case Item(head, tail) => TextsOf(head) + TextsOfItems(tail)
  }

  ghost function TextsOfMembers(m: Members): set<string> {
    match m
    case NoMembers => {}
    case Member(key, value, rest) => {key} + TextsOf(value) + TextsOfMembers(rest)
  }

  lemma {:induction false} CharsWithoutSpace(s: string, t: string)
    requires NoSpace(s) && NoSpace(t)
    ensures NoSpace(PrintChars(s, t))
  {
    if s != "" {
      assert s[0] in s && forall c :: c in s[1..] ==> c in s;
      EscapeIsPlain(s[0]);
      CharsWithoutSpace(s[1..], t);
      hide Escape;
    }
  }

  lemma {:induction false} DigitsWithoutSpace(n: nat, t: string)
    requires NoSpace(t)
    ensures NoSpace(PrintNat(n, t))
  {
    if n >= 10 {
      DigitsWithoutSpace(n / 10, [Digit(n % 10)] + t);
    }
  }

  /** The only spaces in the text are those of its strings. */
  lemma {:induction false} TextIsCompact(j: Json, t: string)
    requires Printable(j) && NoSpace(t) && forall s :: s in TextsOf(j) ==> NoSpace(s)
    ensures NoSpace(Print(j, t))
    decreases j
  {
    match j
    case Null =>
    case Bool(_) =>
    case Int(n) => DigitsWithoutSpace(if n < 0 then 0 - n else n, t);
    case Str(s) => CharsWithoutSpace(s, t);
    case Arr(NoItems) =>
    case Arr(Item(head, tail)) =>
      assert TextsOf(j) == TextsOfItems(j.items) == TextsOf(head) + TextsOfItems(tail);
      ItemsAreCompact(tail, t);
      TextIsCompact(head, PrintItems(tail, t));
    case Obj(NoMembers) =>
    case Obj(Member(key, value, rest)) =>
      assert TextsOf(j) == TextsOfMembers(j.members) == {key} + TextsOf(value) + TextsOfMembers(rest);
      MembersAreCompact(rest, t);
      TextIsCompact(value, PrintMembers(rest, t));
      CharsWithoutSpace(key, [':'] + Print(value, PrintMembers(rest, t)));
  }

  lemma {:induction false} ItemsAreCompact(items: Items, t: string)
    requires PrintableItems(items) && NoSpace(t) && forall s :: s in TextsOfItems(items) ==> NoSpace(s)
    ensures NoSpace(PrintItems(items, t))
    decreases items
  {
    if items.Item? {
      ItemsAreCompact(items.tail, t);
      TextIsCompact(items.head, PrintItems(items.tail, t));
    }
  }

  lemma {:induction false} MembersAreCompact(m: Members, t: string)
    requires PrintableMembers(m) && NoSpace(t) && forall s :: s in TextsOfMembers(m) ==> NoSpace(s)
    ensures NoSpace(PrintMembers(m, t))
    decreases m
  {
    if m.Member? {
      MembersAreCompact(m.rest, t);
      TextIsCompact(m.value, PrintMembers(m.rest, t));
      CharsWithoutSpace(m.key, [':'] + Print(m.value, PrintMembers(m.rest, t)));
    }
  }

  // ---- Payloads ----

  /** The code points of A to Z, a to z, 0 to 9 and the five signs _ . : + - */
  ghost predicate IdentifierCode(n: int) {
    65 <= n <= 90 || 97 <= n <= 122 || 48 <= n <= 57 || n in {95, 46, 58, 43, 45}
  }

  ghost predicate Word(s: string) {
    forall i :: 0 <= i < |s| ==> IdentifierCode(s[i] as int)
  }

  /** An identifier, possibly with one newline after it. */
  ghost predicate Identifier(s: string) {
    if s != "" && s[|s| - 1] == '\n' then Word(s[..|s| - 1]) else Word(s)
  }

  lemma AllSafeMeans(s: string)
    ensures AllSafe(s) <==> Word(s)
  {
    assert forall c: char :: SafeChar(c) <==> IdentifierCode(c as int);
  }

  lemma IdentifierMeans(s: string)
    ensures SafeText(s) <==> Identifier(s)
  {
    AllSafeMeans(s);
    if s != "" && s[|s| - 1] == '\n' {
      assert !SafeChar(s[|s| - 1]);
      AllSafeMeans(s[..|s| - 1]);
    }
  }

  /** What a payload may hold: no floats, nothing else JSON lacks, and only identifiers for strings and keys. */
  lemma {:induction false} SafeMeans(j: Json)
    ensures SafeValue(j) <==> Printable(j) && forall s :: s in TextsOf(j) ==> Identifier(s)
    decreases j
  {
    match j
    case Str(s) => IdentifierMeans(s);
    case Arr(items) => SafeItemsMean(items);
    case Obj(members) => SafeMembersMean(members);
    case _ =>
  }

  lemma {:induction false} SafeItemsMean(items: Items)
    ensures SafeItems(items) <==> PrintableItems(items) && forall s :: s in TextsOfItems(items) ==> Identifier(s)
    decreases items
  {
    hide Identifier;
    if items.Item? {
      SafeMeans(items.head);
      SafeItemsMean(items.tail);
    }
  }

  lemma {:induction false} SafeMembersMean(m: Members)
    ensures SafeMembers(m) <==> PrintableMembers(m) && forall s :: s in TextsOfMembers(m) ==> Identifier(s)
    decreases m
  {
    if m.Member? {
      IdentifierMeans(m.key);
      hide Identifier, SafeText;
      SafeMeans(m.value);
      SafeMembersMean(m.rest);
    }
  }

  // ---- Events ----

  /** The entry of a payload under "v" is 1, or True, which Python takes for the same. */
  ghost predicate VersionOne(payload: Members) {
    Lookup(payload, "v") == Some(Int(1)) || Lookup(payload, "v") == Some(Bool(true))
  }

  /** An event of a known version is refused exactly for what its payload holds, any other for its version. */
  lemma BytesMean(h: Hashing, e: Event)
    ensures var r := CanonicalBytes(h, e);
            && (r == Err(UnknownVersion) <==> !VersionOne(e.payload))
            && (r == Err(UnsafePayload) <==>
                VersionOne(e.payload)
                && !(PrintableMembers(e.payload) && forall s :: s in TextsOfMembers(e.payload) ==> Identifier(s)))
            && r != Err(MissingVersion)
  {
    SafeMembersMean(e.payload);
    hide Identifier, SafeMembers;
  }

  /** An event's fields as they are written, in order. */
  function EventFields(h: Hashing, e: Event): seq<Field> {
    [("agent_signature", if e.agentSignature.Some? then Str(e.agentSignature.value) else Null),
     ("event_id", Str(e.eventId)),
     ("event_type", Str(e.eventType)),
     ("occurred_at", Str(h.isoUtcMicros(e.occurredAt))),
     ("payload", Obj(e.payload)),
     ("prev_hash", Str(e.prevHash)),
     ("reason_code", if e.reasonCode.Some? then Str(e.reasonCode.value) else Null)]
  }

  lemma KeysInOrder(a: string, b: string, i: nat)
    requires DiffersAt(a, b, i) && (i == |a| || a[i] < b[i])
    ensures KeyLe(a, b) && a != b
  {
    KeyLeMeans(a, b);
  }

  /** Each key is followed by the next in order. */
  ghost predicate FieldsAscend(fields: seq<Field>) {
    forall i, j :: 0 <= i && j == i + 1 && j < |fields| ==>
      KeyLe(fields[i].0, fields[j].0) && fields[i].0 != fields[j].0
  }

  lemma EventFieldsAscend(h: Hashing, e: Event)
    ensures FieldsAscend(EventFields(h, e))
  {
    KeysInOrder("agent_signature", "event_id", 0);
    assert "event_id"[..6] == "event_type"[..6];
    KeysInOrder("event_id", "event_type", 6);
    KeysInOrder("event_type", "occurred_at", 0);
    KeysInOrder("occurred_at", "payload", 0);
    assert "payload"[..1] == "prev_hash"[..1];
    KeysInOrder("payload", "prev_hash", 1);
    KeysInOrder("prev_hash", "reason_code", 0);
    hide KeyLe;
  }

  lemma {:induction false} AscendingFieldsAreSorted(fields: seq<Field>)
    requires FieldsAscend(fields)
    ensures StrictlySorted(DictOf(fields))
  {
    hide KeyLe;
    if |fields| > 1 {
      AscendingFieldsAreSorted(fields[1..]);
      BeforeAll(fields[0].0, fields[1].0, DictOf(fields[2..]));
      assert fields[1..][1..] == fields[2..];
    } else if |fields| == 1 {
      assert DictOf(fields[1..]) == NoMembers;
    }
  }

  /** The same fields in another order. */
  ghost predicate Rearranges(a: seq<Field>, b: seq<Field>) {
    (forall i :: 0 <= i < |a| ==> a[i] in b) && forall j :: 0 <= j < |b| ==> b[j] in a
  }

  lemma LookupOf(fields: seq<Field>, x: Field)
    requires DistinctKeys(fields) && x in fields
    ensures Lookup(DictOf(fields), x.0) == Some(x.1)
  {
    var i :| 0 <= i < |fields| && fields[i] == x;
    DictOfLookup(fields, i);
  }

  lemma LookupRearranged(a: seq<Field>, b: seq<Field>, key: string)
    requires DistinctKeys(a) && DistinctKeys(b) && Rearranges(a, b)
    ensures Lookup(DictOf(a), key) == Lookup(DictOf(b), key)
  {
    if i :| 0 <= i < |a| && a[i].0 == key {
      LookupOf(a, a[i]);
      LookupOf(b, a[i]);
    } else {
      forall j | 0 <= j < |b| ensures b[j].0 != key {
        assert b[j] in a;
      }
      DictOfAbsent(a, key);
      DictOfAbsent(b, key);
    }
  }

  lemma SortedFieldsDiffer(fields: seq<Field>)
    requires FieldsAscend(fields)
    ensures DistinctKeys(fields)
  {
    AscendingFieldsAreSorted(fields);
    forall i, j | 0 <= i < j < |fields| ensures fields[i].0 != fields[j].0 {
      LaterKeysDiffer(fields, i, j);
    }
  }

  lemma {:induction false} LaterKeysDiffer(fields: seq<Field>, i: nat, j: nat)
    requires StrictlySorted(DictOf(fields)) && i < j < |fields|
    ensures fields[i].0 != fields[j].0
  {
    if i > 0 {
      LaterKeysDiffer(fields[1..], i - 1, j - 1);
    } else {
      BeforeIsAbsent(fields[0].0, DictOf(fields[1..]));
      KeyIsPresent(fields[1..], j - 1);
    }
  }

  lemma {:induction false} KeyIsPresent(fields: seq<Field>, i: nat)
    requires i < |fields|
    ensures Lookup(DictOf(fields), fields[i].0).Some?
  {
    if i > 0 {
      KeyIsPresent(fields[1..], i - 1);
    }
  }

  lemma FieldsRearranged(h: Hashing, e: Event)
    ensures Rearranges(PreimageFields(h, e), EventFields(h, e))
  {
    var a, b := PreimageFields(h, e), EventFields(h, e);
    assert a[0] == b[1] && a[1] == b[2] && a[2] == b[3] && a[3] == b[5] && a[4] == b[0] && a[5] == b[6] && a[6] == b[4];
  }

  /** The bytes an event is hashed from: its seven fields, in this order, in canonical form. */
  lemma EventBytes(h: Hashing, e: Event)
    requires Hashable(e) && WellFormedMembers(e.payload)
    ensures PrintableMembers(DictOf(EventFields(h, e))) && StrictlySorted(DictOf(EventFields(h, e)))
    ensures CanonicalBytes(h, e) == Ok(Dumps(Obj(DictOf(EventFields(h, e)))))
  {
    var a, b := PreimageFields(h, e), EventFields(h, e);
    PreimageIsWellFormed(h, e);
    PreimageKeysDiffer(h, e);
    EventFieldsAscend(h, e);
    AscendingFieldsAreSorted(b);
    SortedFieldsDiffer(b);
    FieldsRearranged(h, e);
    SafeMembersPrintable(e.payload);
    PrintableFields(b);
    DictOfIsWellFormed(b);
    hide PreimageFields, EventFields;
    forall k ensures Lookup(DictOf(a), k) == Lookup(DictOf(b), k) {
      LookupRearranged(a, b, k);
    }
    SameEntriesSameCanon(DictOf(a), DictOf(b));
  }

  lemma SameEntriesSameCanon(a: Members, b: Members)
    requires WellFormedMembers(a) && WellFormedMembers(b) && forall k :: Lookup(a, k) == Lookup(b, k)
    ensures CanonMembers(a) == CanonMembers(b)
  {
    CanonEntries(a);
    CanonEntries(b);
    SortedByEntries(CanonMembers(a), CanonMembers(b));
  }
}
