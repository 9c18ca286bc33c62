/**
 * The JSON texts that the audit log hashes: json.dumps with sorted keys, no spaces and ASCII escapes
 * (sampark/audit/canonical.py), and a reader that takes them apart again (sections 4 to 7 of RFC 8259).
 *
 * Strings are sequences of Unicode scalar values.  A dictionary is its members in insertion order.
 */
module Json {
  import opened Wrappers

  datatype Json =
    | Null
    | Bool(flag: bool)
    | Int(n: int)
    | Str(text: string)
    | Arr(items: Items)
    | Obj(members: Members)
    | Float(value: real)
    | Unsupported

  datatype Items = NoItems | Item(head: Json, tail: Items)

  datatype Members = NoMembers | Member(key: string, value: Json, rest: Members)

  // ---- Printing: the text of a value, in front of what follows it ----

  function Digit(d: nat): char
    requires d < 16
  {
    if d < 10 then '0' + d as char else 'a' + (d - 10) as char
  }

  function DigitValue(c: char): Option<nat> {
    if '0' <= c <= '9' then Some((c - '0') as nat)
    else if 'a' <= c <= 'f' then Some((c - 'a') as nat + 10)
    else None
  }

  function Hex4(n: nat): (h: string)
    requires n < 0x10000
    ensures |h| == 4
  {
    var high, low := n / 256, n % 256;
    [Digit(high / 16), Digit(high % 16), Digit(low / 16), Digit(low % 16)]
  }

  /** The second character of a two-character escape, for those that have one. */
  function ShortEscape(c: char): Option<char> {
    match c
    case '\"' => Some('\"')
    case '\\' => Some('\\')
    case '\n' => Some('n')
    case '\r' => Some('r')
    case '\t' => Some('t')
    case '\U{8}' => Some('b')
    case '\U{c}' => Some('f')
    case _ => None
  }

  function Escape(c: char): string {
    if ShortEscape(c).Some? then ['\\', ShortEscape(c).value]
    else if ' ' <= c <= '~' then [c]
    else if (c as int) < 0x10000 then ['\\', 'u'] + Hex4(c as int)
    else
      var v := c as int - 0x10000;
      ['\\', 'u'] + Hex4(0xd800 + v / 1024) + ['\\', 'u'] + Hex4(0xdc00 + v % 1024)
  }

  function PrintChars(s: string, t: string): string {
    if s == "" then ['\"'] + t else Escape(s[0]) + PrintChars(s[1..], t)
  }

  function PrintString(s: string, t: string): string {
    ['\"'] + PrintChars(s, t)
  }

  function PrintNat(n: nat, t: string): string {
    if n < 10 then [Digit(n)] + t else PrintNat(n / 10, [Digit(n % 10)] + t)
  }

  function PrintInt(n: int, t: string): string {
    if n < 0 then ['-'] + PrintNat(0 - n, t) else PrintNat(n, t)
  }

  /** Only null, booleans, integers, strings, lists and dictionaries are ever printed. */
  predicate Printable(j: Json) {
    match j
    case Arr(items) => PrintableItems(items)
    case Obj(members) => PrintableMembers(members)
    case Float(_) => false
    case Unsupported => false
    case _ => true
  }

  predicate PrintableItems(items: Items) {
    items.Item? ==> Printable(items.head) && PrintableItems(items.tail)
  }

  predicate PrintableMembers(members: Members) {
    members.Member? ==> Printable(members.value) && PrintableMembers(members.rest)
  }

  /** The text of `j` with its members in the order given, followed by `t`. */
  function Print(j: Json, t: string): string
    requires Printable(j)
  {
    match j
    case Null => "null" + t
    case Bool(b) => if b then "true" + t else "false" + t
    case Int(n) => PrintInt(n, t)
    case Str(s) => PrintString(s, t)
    case Arr(NoItems) => ['[', ']'] + t
    case Arr(Item(head, tail)) =>
      assert PrintableItems(j.items);
      ['['] + Print(head, PrintItems(tail, t))
    case Obj(NoMembers) => ['{', '}'] + t
    case Obj(Member(key, value, rest)) =>
      assert PrintableMembers(j.members);
      ['{'] + PrintString(key, [':'] + Print(value, PrintMembers(rest, t)))
  }

  /** The items after the first, each behind a comma. */
  function PrintItems(items: Items, t: string): string
    requires PrintableItems(items)
  {
    match items
    case NoItems => [']'] + t
    case Item(head, tail) => [','] + Print(head, PrintItems(tail, t))
  }

  function PrintMembers(members: Members, t: string): string
    requires PrintableMembers(members)
  {
    match members
    case NoMembers => ['}'] + t
    case Member(key, value, rest) => [','] + PrintString(key, [':'] + Print(value, PrintMembers(rest, t)))
  }

  // ---- Reading ----

  function HexAt(t: string, i: nat): Option<nat> {
    if |t| < i + 4 then None else
      var a, b, c, d := DigitValue(t[i]), DigitValue(t[i + 1]), DigitValue(t[i + 2]), DigitValue(t[i + 3]);
      if a.Some? && b.Some? && c.Some? && d.Some?
      then Some((a.value * 16 + b.value) * 256 + c.value * 16 + d.value) else None
  }

  function ShortUnescape(c: char): Option<char> {
    match c
    case '\"' => Some('\"')
    case '\\' => Some('\\')
    case 'n' => Some('\n')
    case 'r' => Some('\r')
    case 't' => Some('\t')
    case 'b' => Some('\U{8}')
    case 'f' => Some('\U{c}')
    case _ => None
  }

  /** One escaped or plain character, and how much text it takes. */
  function ReadChar(t: string): (r: Option<(char, nat)>)
    ensures r.Some? ==> 1 <= r.value.1 <= |t|
  {
    if t == "" || t[0] == '\"' then None
    else if t[0] != '\\' then Some((t[0], 1))
    else if |t| < 2 then None
    else if ShortUnescape(t[1]).Some? then Some((ShortUnescape(t[1]).value, 2))
    else if t[1] == 'u' then ReadUnicode(t)
    else None
  }

  function ReadUnicode(t: string): (r: Option<(char, nat)>)
    ensures r.Some? ==> 1 <= r.value.1 <= |t|
  {
    var n := HexAt(t, 2);
    if n.None? then None
    else if n.value < 0xd800 || 0xe000 <= n.value < 0x10000 then Some((n.value as char, 6))
    else if n.value < 0xdc00 && |t| >= 12 && t[6] == '\\' && t[7] == 'u' then
      var low := HexAt(t, 8);
      if low.Some? && 0xdc00 <= low.value < 0xe000
      then Some(((0x10000 + (n.value - 0xd800) * 1024 + (low.value - 0xdc00)) as char, 12)) else None
    else None
  }

  function ReadChars(t: string): (r: Option<(string, string)>)
    ensures r.Some? ==> |r.value.1| < |t|
    decreases |t|
  {
    if t != "" && t[0] == '\"' then Some(("", t[1..])) else
      var c := ReadChar(t);
      if c.None? then None else
        var rest := ReadChars(t[c.value.1..]);
        if rest.None? then None else Some(([c.value.0] + rest.value.0, rest.value.1))
  }

  function ReadString(t: string): (r: Option<(string, string)>)
    ensures r.Some? ==> |r.value.1| < |t|
  {
    if t != "" && t[0] == '\"' then ReadChars(t[1..]) else None
  }

  predicate IsDecimal(c: char) {
    '0' <= c <= '9'
  }

  predicate StartsWithDigit(t: string) {
    t != "" && IsDecimal(t[0])
  }

  function ReadDigits(t: string, acc: nat): (r: (nat, string))
    ensures |r.1| <= |t|
  {
    if StartsWithDigit(t) then ReadDigits(t[1..], acc * 10 + (t[0] - '0') as nat) else (acc, t)
  }

  /** The words null, true and false. */
  function ReadWord(t: string): (r: Option<(Json, string)>)
    requires t != ""
    ensures r.Some? ==> |r.value.1| < |t|
  {
    if "null" <= t then Some((Null, t[4..]))
    else if "true" <= t then Some((Bool(true), t[4..]))
    else if "false" <= t then Some((Bool(false), t[5..]))
    else None
  }

  function Read(t: string): (r: Option<(Json, string)>)
    ensures r.Some? ==> |r.value.1| < |t|
    decreases |t|, 0
  {
    if t == "" then None
    else if t[0] == '\"' then
      var s := ReadChars(t[1..]);
      if s.None? then None else Some((Str(s.value.0), s.value.1))
    else if t[0] == '[' then
      if |t| > 1 && t[1] == ']' then Some((Arr(NoItems), t[2..])) else
        var items := ReadItem(t[1..]);
        if items.None? then None else Some((Arr(items.value.0), items.value.1))
    else if t[0] == '{' then
      if |t| > 1 && t[1] == '}' then Some((Obj(NoMembers), t[2..])) else
        var members := ReadMember(t[1..]);
        if members.None? then None else Some((Obj(members.value.0), members.value.1))
    else if t[0] == '-' then
      if StartsWithDigit(t[1..]) then
        var (n, rest) := ReadDigits(t[1..], 0);
        Some((Int(0 - n), rest))
      else None
    else if IsDecimal(t[0]) then
      var (n, rest) := ReadDigits(t[1..], (t[0] - '0') as nat);
      Some((Int(n), rest))
    else ReadWord(t)
  }

  /** An item and all that follow it, up to the closing bracket. */
  function ReadItem(t: string): (r: Option<(Items, string)>)
    ensures r.Some? ==> |r.value.1| < |t|
    decreases |t|, 1
  {
    var head := Read(t);
    if head.None? || head.value.1 == "" then None
    else if head.value.1[0] == ']' then Some((Item(head.value.0, NoItems), head.value.1[1..]))
    else if head.value.1[0] == ',' then
      var tail := ReadItem(head.value.1[1..]);
      if tail.None? then None else Some((Item(head.value.0, tail.value.0), tail.value.1))
    else None
  }

  function ReadMember(t: string): (r: Option<(Members, string)>)
    ensures r.Some? ==> |r.value.1| < |t|
    decreases |t|, 1
  {
    var key := ReadString(t);
    if key.None? || key.value.1 == "" || key.value.1[0] != ':' then None else
      var value := Read(key.value.1[1..]);
      if value.None? || value.value.1 == "" then None
      else if value.value.1[0] == '}' then Some((Member(key.value.0, value.value.0, NoMembers), value.value.1[1..]))
      else if value.value.1[0] == ',' then
        var rest := ReadMember(value.value.1[1..]);
        if rest.None? then None else Some((Member(key.value.0, value.value.0, rest.value.0), rest.value.1))
      else None
  }

  // ---- Reading inverts printing ----

  lemma DigitReads(d: nat)
    requires d < 16
    ensures DigitValue(Digit(d)) == Some(d)
  {
  }

  lemma HexReads(n: nat, t: string, i: nat)
    requires n < 0x10000 && i + 4 <= |t|
    requires t[i] == Hex4(n)[0] && t[i + 1] == Hex4(n)[1] && t[i + 2] == Hex4(n)[2] && t[i + 3] == Hex4(n)[3]
    ensures HexAt(t, i) == Some(n)
  {
    var high, low := n / 256, n % 256;
    DigitReads(high / 16);
    DigitReads(high % 16);
    DigitReads(low / 16);
    DigitReads(low % 16);
  }

  lemma BasicUnicodeReads(c: char, t: string)
    requires (c as int) < 0x10000
    ensures ReadUnicode(['\\', 'u'] + Hex4(c as int) + t) == Some((c, 6))
  {
    HexReads(c as int, ['\\', 'u'] + Hex4(c as int) + t, 2);
  }

  lemma PairReads(high: nat, low: nat, t: string)
    requires high < 1024 && low < 1024
    requires |t| >= 12 && t[6] == '\\' && t[7] == 'u'
    requires HexAt(t, 2) == Some(0xd800 + high) && HexAt(t, 8) == Some(0xdc00 + low)
    ensures ReadUnicode(t) == Some(((0x10000 + high * 1024 + low) as char, 12))
  {
  }

  lemma PairText(high: string, low: string, t: string)
    requires |high| == 4 && |low| == 4
    ensures var text := ['\\', 'u'] + high + ['\\', 'u'] + low + t;
            && |text| >= 12 && text[6] == '\\' && text[7] == 'u'
            && text[2] == high[0] && text[3] == high[1] && text[4] == high[2] && text[5] == high[3]
            && text[8] == low[0] && text[9] == low[1] && text[10] == low[2] && text[11] == low[3]
  {
  }

  lemma SurrogatesRead(c: char, t: string)
    requires (c as int) >= 0x10000
    ensures var v := c as int - 0x10000;
            ReadUnicode(['\\', 'u'] + Hex4(0xd800 + v / 1024) + ['\\', 'u'] + Hex4(0xdc00 + v % 1024) + t)
              == Some((c, 12))
  {
    var v := c as int - 0x10000;
    var high, low := v / 1024, v % 1024;
    var text := ['\\', 'u'] + Hex4(0xd800 + high) + ['\\', 'u'] + Hex4(0xdc00 + low) + t;
    PairText(Hex4(0xd800 + high), Hex4(0xdc00 + low), t);
    assert HexAt(text, 2) == Some(0xd800 + high) by {
      HexReads(0xd800 + high, text, 2);
    }
    assert HexAt(text, 8) == Some(0xdc00 + low) by {
      HexReads(0xdc00 + low, text, 8);
    }
    PairReads(high, low, text);
  }

  lemma ShortEscapeReads(c: char)
    ensures ShortEscape(c).Some? ==> ShortUnescape(ShortEscape(c).value) == Some(c)
  {
  }

  lemma ShortCharReads(c: char, t: string)
    requires ShortEscape(c).Some?
    ensures ReadChar(Escape(c) + t) == Some((c, |Escape(c)|))
    ensures Escape(c)[0] != '\"'
  {
    ShortEscapeReads(c);
  }

  lemma UnicodeCharReads(c: char, t: string)
    requires ShortEscape(c).None? && !(' ' <= c <= '~')
    ensures ReadChar(Escape(c) + t) == Some((c, |Escape(c)|))
    ensures Escape(c)[0] != '\"'
  {
    if (c as int) < 0x10000 {
      BasicUnicodeReads(c, t);
    } else {
      SurrogatesRead(c, t);
    }
  }

  lemma CharReads(c: char, t: string)
    ensures ReadChar(Escape(c) + t) == Some((c, |Escape(c)|))
    ensures Escape(c)[0] != '\"'
  {
    if ShortEscape(c).Some? {
      ShortCharReads(c, t);
    } else if !(' ' <= c <= '~') {
      UnicodeCharReads(c, t);
    }
  }

  lemma {:induction false} CharsRead(s: string, t: string)
    ensures ReadChars(PrintChars(s, t)) == Some((s, t))
  {
    if s != "" {
      var rest := PrintChars(s[1..], t);
      CharReads(s[0], rest);
      assert (Escape(s[0]) + rest)[|Escape(s[0])|..] == rest;
      CharsRead(s[1..], t);
      assert [s[0]] + s[1..] == s;
    }
  }

  lemma {:induction false} NatReads(n: nat, t: string)
    ensures ReadDigits(PrintNat(n, t), 0) == ReadDigits(t, n)
    ensures StartsWithDigit(PrintNat(n, t))
  {
    if n >= 10 {
      NatReads(n / 10, [Digit(n % 10)] + t);
    }
  }

  lemma IntReads(n: int, t: string)
    requires !StartsWithDigit(t)
    ensures Read(PrintInt(n, t)) == Some((Int(n), t))
  {
    var text := PrintInt(n, t);
    NatReads(if n < 0 then 0 - n else n, t);
    if n < 0 {
      assert text[1..] == PrintNat(0 - n, t);
    }
  }

  lemma WordReads(j: Json, t: string)
    requires j.Null? || j.Bool?
    ensures Read(Print(j, t)) == Some((j, t))
  {
    var text := Print(j, t);
    assert text[if j == Bool(false) then 5 else 4..] == t;
  }

  lemma MemberReads(key: string, value: Json, rest: Members, t: string)
    requires Printable(value) && PrintableMembers(rest)
    requires Read(Print(value, PrintMembers(rest, t))) == Some((value, PrintMembers(rest, t)))
    requires rest.Member? ==> ReadMember(PrintMembers(rest, t)[1..]) == Some((rest, t))
    ensures ReadMember(PrintString(key, [':'] + Print(value, PrintMembers(rest, t))))
            == Some((Member(key, value, rest), t))
  {
    var after := [':'] + Print(value, PrintMembers(rest, t));
    CharsRead(key, after);
    assert PrintString(key, after)[1..] == PrintChars(key, after);
    assert after[1..] == Print(value, PrintMembers(rest, t));
  }

  lemma ItemReads(head: Json, tail: Items, t: string)
    requires Printable(head) && PrintableItems(tail)
    requires Read(Print(head, PrintItems(tail, t))) == Some((head, PrintItems(tail, t)))
    requires tail.Item? ==> ReadItem(PrintItems(tail, t)[1..]) == Some((tail, t))
    ensures ReadItem(Print(head, PrintItems(tail, t))) == Some((Item(head, tail), t))
  {
  }

  /** A printed value does not start like the end of a list. */
  lemma PrintStarts(j: Json, t: string)
    requires Printable(j)
    ensures Print(j, t) != "" && Print(j, t)[0] != ']'
  {
    if j.Int? {
      NatReads(if j.n < 0 then 0 - j.n else j.n, t);
    }
  }

  /** The reader recovers exactly the value printed and exactly the text that followed it. */
  lemma {:induction false} ReadInvertsPrint(j: Json, t: string)
    requires Printable(j) && !StartsWithDigit(t)
    ensures Read(Print(j, t)) == Some((j, t))
    decreases j
  {
    match j
    case Null => WordReads(j, t);
    case Bool(_) => WordReads(j, t);
    case Int(n) => IntReads(n, t);
    case Str(s) =>
      CharsRead(s, t);
      assert Print(j, t)[1..] == PrintChars(s, t);
    case Arr(NoItems) =>
    case Arr(Item(head, tail)) =>
      ItemsRead(tail, t);
      ReadInvertsPrint(head, PrintItems(tail, t));
      ItemReads(head, tail, t);
      PrintStarts(head, PrintItems(tail, t));
      assert Print(j, t)[1..] == Print(head, PrintItems(tail, t));
    case Obj(NoMembers) =>
    case Obj(Member(key, value, rest)) =>
      MembersRead(rest, t);
      ReadInvertsPrint(value, PrintMembers(rest, t));
      MemberReads(key, value, rest, t);
      assert Print(j, t)[1..] == PrintString(key, [':'] + Print(value, PrintMembers(rest, t)));
  }

  lemma {:induction false} ItemsRead(items: Items, t: string)
    requires PrintableItems(items)
    ensures !StartsWithDigit(PrintItems(items, t))
    ensures items.Item? ==> ReadItem(PrintItems(items, t)[1..]) == Some((items, t))
    decreases items
  {
    if items.Item? {
      ItemsRead(items.tail, t);
      ReadInvertsPrint(items.head, PrintItems(items.tail, t));
      ItemReads(items.head, items.tail, t);
      assert PrintItems(items, t)[1..] == Print(items.head, PrintItems(items.tail, t));
    }
  }

  lemma {:induction false} MembersRead(members: Members, t: string)
    requires PrintableMembers(members)
    ensures !StartsWithDigit(PrintMembers(members, t))
    ensures members.Member? ==> ReadMember(PrintMembers(members, t)[1..]) == Some((members, t))
    decreases members
  {
    if members.Member? {
      MembersRead(members.rest, t);
      ReadInvertsPrint(members.value, PrintMembers(members.rest, t));
      MemberReads(members.key, members.value, members.rest, t);
      assert PrintMembers(members, t)[1..]
             == PrintString(members.key, [':'] + Print(members.value, PrintMembers(members.rest, t)));
    }
  }
}
