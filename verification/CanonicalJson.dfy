/** The canonical JSON printer shared by the event reducer and the command hash.

    Both sources print an object by sorting its entries with `localeCompare` and
    then joining them, so two payloads are "the same" exactly when they print the
    same.  Texts are sequences of UTF-16 code units.  A number is identified with
    the token the platform prints for it. */
module CanonicalJson {

  type CodeUnit = u: int | 0 <= u < 0x1_0000

  type Text = seq<CodeUnit>

  const QUOTE: CodeUnit := 0x22
  const BACKSLASH: CodeUnit := 0x5C
  const COMMA: CodeUnit := 0x2C
  const COLON: CodeUnit := 0x3A
  const MINUS: CodeUnit := 0x2D
  const OPEN_BRACKET: CodeUnit := 0x5B
  const CLOSE_BRACKET: CodeUnit := 0x5D
  const OPEN_BRACE: CodeUnit := 0x7B
  const CLOSE_BRACE: CodeUnit := 0x7D

  const NULL_TOKEN: Text := [0x6E, 0x75, 0x6C, 0x6C]
  const TRUE_TOKEN: Text := [0x74, 0x72, 0x75, 0x65]
  const FALSE_TOKEN: Text := [0x66, 0x61, 0x6C, 0x73, 0x65]

  datatype Json =
    | Null
    | Bool(value: bool)
    | Number(token: Text)
    | Str(text: Text)
    | Arr(items: seq<Json>)
    | Obj(entries: seq<Entry>)

  datatype Entry = Entry(key: Text, value: Json)

  /** How `localeCompare` places a key: keys compare like their ranks, so distinct
      keys with equal rank are exactly the ones the collation cannot tell apart. */
  type Collation = Text -> real

  // ---------- What a JSON value means: objects forget the order of their entries ----------

  datatype Value =
    | VNull
    | VBool(value: bool)
    | VNumber(token: Text)
    | VStr(text: Text)
    | VArr(items: seq<Value>)
    | VObj(members: map<Text, Value>)

  function Meaning(v: Json): Value {
    match v
    case Null => VNull
    case Bool(b) => VBool(b)
    case Number(t) => VNumber(t)
    case Str(s) => VStr(s)
    case Arr(items) => VArr(MeaningItems(items))
    case Obj(entries) => VObj(MeaningMembers(entries))
  }

  function MeaningItems(items: seq<Json>): seq<Value> {
    if items == [] then [] else [Meaning(items[0])] + MeaningItems(items[1..])
  }

  function MeaningMembers(entries: seq<Entry>): map<Text, Value> {
    if entries == [] then map[]
    else MeaningMembers(entries[1..])[entries[0].key := Meaning(entries[0].value)]
  }

  predicate IsDigit(u: CodeUnit) { 0x30 <= u <= 0x39 }

  predicate IsNumberUnit(u: CodeUnit) {
    IsDigit(u) || u == MINUS || u == 0x2B || u == 0x2E || u == 0x65
  }

  predicate IsNumberToken(t: Text) {
    && t != []
    && (IsDigit(t[0]) || t[0] == MINUS)
    && forall i | 0 <= i < |t| :: IsNumberUnit(t[i])
  }

  predicate DistinctKeys(entries: seq<Entry>) {
    forall i, j | 0 <= i < j < |entries| :: entries[i].key != entries[j].key
  }

  /** Values a JSON parser can produce. */
  predicate WellFormed(v: Json) {
    match v
    case Null => true
    case Bool(_) => true
    case Number(t) => IsNumberToken(t)
    case Str(_) => true
    case Arr(items) => forall i | 0 <= i < |items| :: WellFormed(items[i])
    case Obj(entries) => DistinctKeys(entries) && forall i | 0 <= i < |entries| :: WellFormed(entries[i].value)
  }

  // ---------- The printer ----------

  predicate IsHigh(u: CodeUnit) { 0xD800 <= u < 0xDC00 }

  predicate IsLow(u: CodeUnit) { 0xDC00 <= u < 0xE000 }

  function HexDigit(d: int): CodeUnit
    requires 0 <= d < 16
  {
    if d < 10 then 0x30 + d else 0x57 + d
  }

  function HexEscape(u: CodeUnit): Text {
    [BACKSLASH, 0x75, HexDigit(u / 0x1000), HexDigit(u / 0x100 % 16), HexDigit(u / 16 % 16), HexDigit(u % 16)]
  }

  /** The letter of a two-unit escape, or 0 when the unit has none. */
  function ShortEscape(u: CodeUnit): CodeUnit {
    if u == QUOTE then QUOTE
    else if u == BACKSLASH then BACKSLASH
    else if u == 8 then 0x62
    else if u == 9 then 0x74
    else if u == 10 then 0x6E
    else if u == 12 then 0x66
    else if u == 13 then 0x72
    else 0
  }

  function EscapeUnit(u: CodeUnit): Text {
    if ShortEscape(u) != 0 then [BACKSLASH, ShortEscape(u)]
    else if u < 0x20 || IsHigh(u) || IsLow(u) then HexEscape(u)
    else [u]
  }

  predicate StartsWithPair(s: Text) { |s| >= 2 && IsHigh(s[0]) && IsLow(s[1]) }

  /** Surrogate pairs stay raw, lone surrogates and control units are escaped. */
  function EscapeHead(s: Text): Text
    requires s != []
  {
    if StartsWithPair(s) then s[..2] else EscapeUnit(s[0])
  }

  function TailAfterHead(s: Text): (r: Text)
    requires s != []
    ensures |r| < |s|
  {
    if StartsWithPair(s) then s[2..] else s[1..]
  }

  function Escape(s: Text): Text {
    if s == [] then [] else EscapeHead(s) + Escape(TailAfterHead(s))
  }

  function PrintString(s: Text): Text { [QUOTE] + Escape(s) + [QUOTE] }

  /** Stable insertion: an entry goes in front of later entries of the same rank. */
  function Insert(c: Collation, e: Entry, sorted: seq<Entry>): (r: seq<Entry>)
    ensures |r| == |sorted| + 1
  {
    if sorted == [] || c(e.key) <= c(sorted[0].key) then [e] + sorted
    else [sorted[0]] + Insert(c, e, sorted[1..])
  }

  function Sort(c: Collation, entries: seq<Entry>): (r: seq<Entry>)
    ensures |r| == |entries|
  {
    if entries == [] then [] else Insert(c, entries[0], Sort(c, entries[1..]))
  }

  lemma {:induction false} InsertPermutes(c: Collation, e: Entry, sorted: seq<Entry>)
    ensures multiset(Insert(c, e, sorted)) == multiset{e} + multiset(sorted)
  {
    if sorted != [] {
      assert sorted == [sorted[0]] + sorted[1..];
      InsertPermutes(c, e, sorted[1..]);
    }
  }

  lemma {:induction false} SortPermutes(c: Collation, entries: seq<Entry>)
    ensures multiset(Sort(c, entries)) == multiset(entries)
  {
    if entries != [] {
      assert entries == [entries[0]] + entries[1..];
      SortPermutes(c, entries[1..]);
      InsertPermutes(c, entries[0], Sort(c, entries[1..]));
    }
  }

  lemma SortKeepsEntries(c: Collation, entries: seq<Entry>)
    ensures forall i | 0 <= i < |entries| :: Sort(c, entries)[i] in entries
  {
    SortPermutes(c, entries);
    forall i | 0 <= i < |entries| ensures Sort(c, entries)[i] in entries {
      assert Sort(c, entries)[i] in multiset(entries);
    }
  }

  function Print(c: Collation, v: Json): Text
    decreases v
  {
    match v
    case Null => NULL_TOKEN
    case Bool(b) => if b then TRUE_TOKEN else FALSE_TOKEN
    case Number(t) => t
    case Str(s) => PrintString(s)
    case Arr(items) => [OPEN_BRACKET] + PrintItems(c, items) + [CLOSE_BRACKET]
    case Obj(entries) =>
      SortKeepsEntries(c, entries);
      assert forall e | e in entries :: e.value < v;
      [OPEN_BRACE] + PrintMembers(c, Sort(c, entries), v) + [CLOSE_BRACE]
  }

  function PrintItems(c: Collation, items: seq<Json>): Text
    decreases items
  {
    if items == [] then []
    else if |items| == 1 then Print(c, items[0])
    else Print(c, items[0]) + [COMMA] + PrintItems(c, items[1..])
  }

  function PrintMembers(c: Collation, entries: seq<Entry>, ghost owner: Json): Text
    requires forall i | 0 <= i < |entries| :: entries[i].value < owner
    decreases owner, |entries|
  {
    if entries == [] then []
    else
      var member := PrintString(entries[0].key) + [COLON] + Print(c, entries[0].value);
      if |entries| == 1 then member else member + [COMMA] + PrintMembers(c, entries[1..], owner)
  }

  // ---------- Equal prints have equal meanings, whatever the collation ----------

  predicate Delimited(x: Text) {
    x == [] || x[0] == COMMA || x[0] == CLOSE_BRACKET || x[0] == CLOSE_BRACE
  }

  lemma SplitEqual(a: Text, b: Text, x: Text, y: Text)
    requires a + x == b + y && |a| == |b|
    ensures a == b && x == y
  {
    assert a == (a + x)[..|a|] && b == (b + y)[..|b|];
    assert x == (a + x)[|a|..] && y == (b + y)[|b|..];
  }

  lemma HeadAfterShorter(a: Text, b: Text, x: Text, y: Text)
    requires a + x == b + y && |a| < |b|
    ensures x != [] && x[0] == b[|a|]
  {
    assert (a + x)[|a|] == (b + y)[|a|];
  }

  lemma NumbersAreDelimited(a: Text, b: Text, x: Text, y: Text)
    requires IsNumberToken(a) && IsNumberToken(b) && Delimited(x) && Delimited(y)
    requires a + x == b + y
    ensures a == b && x == y
  {
    if |a| < |b| {
      HeadAfterShorter(a, b, x, y);
    } else if |b| < |a| {
      HeadAfterShorter(b, a, y, x);
    } else {
      SplitEqual(a, b, x, y);
    }
  }

  lemma FromHexDigits(u: CodeUnit)
    ensures u == u / 0x1000 * 0x1000 + u / 0x100 % 16 * 0x100 + u / 16 % 16 * 16 + u % 16
  {
    assert u / 16 / 16 == u / 0x100 && u / 0x100 / 16 == u / 0x1000;
  }

  lemma HexEscapeIsInjective(u: CodeUnit, v: CodeUnit)
    requires HexEscape(u) == HexEscape(v)
    ensures u == v
  {
    var p, q := HexEscape(u), HexEscape(v);
    assert p[2] == q[2] && p[3] == q[3] && p[4] == q[4] && p[5] == q[5];
    FromHexDigits(u);
    FromHexDigits(v);
  }

  lemma EscapeUnitIsPrefixFree(u: CodeUnit, v: CodeUnit, x: Text, y: Text)
    requires EscapeUnit(u) + x == EscapeUnit(v) + y
    ensures u == v && x == y
  {
    var a, b := EscapeUnit(u), EscapeUnit(v);
    assert (a + x)[0] == a[0] && (b + y)[0] == b[0];
    if a[0] == BACKSLASH {
      assert (a + x)[1] == a[1] && (b + y)[1] == b[1];
    }
    SplitEqual(a, b, x, y);
    if |a| == 6 { HexEscapeIsInjective(u, v); }
  }

  lemma EscapeHeadIsPrefixFree(s: Text, t: Text, x: Text, y: Text)
    requires s != [] && t != [] && EscapeHead(s) + x == EscapeHead(t) + y
    ensures x == y && EscapeHead(s) == EscapeHead(t) && StartsWithPair(s) == StartsWithPair(t) && s[0] == t[0]
  {
    var a, b := EscapeHead(s), EscapeHead(t);
    assert (a + x)[0] == a[0] && (b + y)[0] == b[0];
    if StartsWithPair(s) {
      SplitEqual(a, b, x, y);
    } else {
      EscapeUnitIsPrefixFree(s[0], t[0], x, y);
    }
  }

  lemma EscapeFirst(s: Text, x: Text)
    requires s != []
    ensures Escape(s) + [QUOTE] + x == EscapeHead(s) + (Escape(TailAfterHead(s)) + [QUOTE] + x)
    ensures (Escape(s) + [QUOTE] + x)[0] != QUOTE
  {
    hide TailAfterHead, HexDigit, IsLow;
  }

  /** The closing quote is never produced by an escape, so a printed string ends where it seems to. */
  lemma {:induction false} EscapeIsPrefixFree(s: Text, t: Text, x: Text, y: Text)
    requires Escape(s) + [QUOTE] + x == Escape(t) + [QUOTE] + y
    ensures s == t && x == y
    decreases |s|
  {
    if s != [] { EscapeFirst(s, x); }
    if t != [] { EscapeFirst(t, y); }
    if s == [] || t == [] {
      assert Escape([]) + [QUOTE] + x == [QUOTE] + x && Escape([]) + [QUOTE] + y == [QUOTE] + y;
      SplitEqual([QUOTE], [QUOTE], x, y);
    } else {
      EscapeHeadIsPrefixFree(s, t, Escape(TailAfterHead(s)) + [QUOTE] + x, Escape(TailAfterHead(t)) + [QUOTE] + y);
      EscapeIsPrefixFree(TailAfterHead(s), TailAfterHead(t), x, y);
      assert s == s[..|s| - |TailAfterHead(s)|] + TailAfterHead(s);
      assert t == t[..|t| - |TailAfterHead(t)|] + TailAfterHead(t);
    }
  }

  lemma PrintStringIsPrefixFree(s: Text, t: Text, x: Text, y: Text)
    requires PrintString(s) + x == PrintString(t) + y
    ensures s == t && x == y
  {
    hide ShortEscape, HexEscape, EscapeUnit;
    var a, b := Escape(s) + [QUOTE] + x, Escape(t) + [QUOTE] + y;
    assert PrintString(s) + x == [QUOTE] + a && PrintString(t) + y == [QUOTE] + b;
    SplitEqual([QUOTE], [QUOTE], a, b);
    EscapeIsPrefixFree(s, t, x, y);
  }

  /** The first code unit tells the kinds of value apart. */
  predicate StartsLike(v: Json, u: CodeUnit) {
    match v
    case Null => u == NULL_TOKEN[0]
    case Bool(b) => u == if b then TRUE_TOKEN[0] else FALSE_TOKEN[0]
    case Number(_) => IsDigit(u) || u == MINUS
    case Str(_) => u == QUOTE
    case Arr(_) => u == OPEN_BRACKET
    case Obj(_) => u == OPEN_BRACE
  }

  lemma PrintStarts(c: Collation, v: Json, x: Text)
    requires WellFormed(v)
    ensures Print(c, v) != [] && (Print(c, v) + x)[0] == Print(c, v)[0] && StartsLike(v, Print(c, v)[0])
  {}

  lemma MeaningOfEntries(entries: seq<Entry>, other: seq<Entry>)
    requires |entries| == |other|
    requires forall i | 0 <= i < |entries| ::
               entries[i].key == other[i].key && Meaning(entries[i].value) == Meaning(other[i].value)
    ensures MeaningMembers(entries) == MeaningMembers(other)
  {
    if entries != [] { MeaningOfEntries(entries[1..], other[1..]); }
  }

  /** What follows the first item of a printed array. */
  function AfterItem(c: Collation, items: seq<Json>, x: Text): Text
    requires items != []
  {
    if |items| == 1 then [CLOSE_BRACKET] + x
    else [COMMA] + (PrintItems(c, items[1..]) + [CLOSE_BRACKET] + x)
  }

  lemma PrintItemsFirst(c: Collation, items: seq<Json>, x: Text)
    requires items != [] && WellFormed(items[0])
    ensures PrintItems(c, items) + [CLOSE_BRACKET] + x == Print(c, items[0]) + AfterItem(c, items, x)
    ensures (PrintItems(c, items) + [CLOSE_BRACKET] + x)[0] != CLOSE_BRACKET
  {
    PrintStarts(c, items[0], AfterItem(c, items, x));
  }

  /** What follows the first key of a printed object. */
  function AfterKey(c: Collation, entries: seq<Entry>, ghost owner: Json, x: Text): Text
    requires entries != [] && forall i | 0 <= i < |entries| :: entries[i].value < owner
  {
    Print(c, entries[0].value) + AfterMember(c, entries, owner, x)
  }

  function AfterMember(c: Collation, entries: seq<Entry>, ghost owner: Json, x: Text): Text
    requires entries != [] && forall i | 0 <= i < |entries| :: entries[i].value < owner
  {
    if |entries| == 1 then [CLOSE_BRACE] + x
    else [COMMA] + (PrintMembers(c, entries[1..], owner) + [CLOSE_BRACE] + x)
  }

  lemma Bracketed(open: CodeUnit, p: Text, close: CodeUnit, x: Text)
    ensures [open] + p + [close] + x == [open] + (p + [close] + x)
  {}

  lemma Regroup(k: Text, v: Text, r: Text, x: Text)
    ensures k + [COLON] + v + [CLOSE_BRACE] + x == k + ([COLON] + (v + ([CLOSE_BRACE] + x)))
    ensures k + [COLON] + v + [COMMA] + r + [CLOSE_BRACE] + x == k + ([COLON] + (v + ([COMMA] + (r + [CLOSE_BRACE] + x))))
  {}

  lemma PrintMembersFirst(c: Collation, entries: seq<Entry>, owner: Json, x: Text)
    requires entries != [] && forall i | 0 <= i < |entries| :: entries[i].value < owner
    ensures PrintMembers(c, entries, owner) + [CLOSE_BRACE] + x
         == PrintString(entries[0].key) + ([COLON] + AfterKey(c, entries, owner, x))
    ensures (PrintMembers(c, entries, owner) + [CLOSE_BRACE] + x)[0] == QUOTE
  {
    var key, value := PrintString(entries[0].key), Print(c, entries[0].value);
    Regroup(key, value, if |entries| == 1 then [] else PrintMembers(c, entries[1..], owner), x);
    assert key[0] == QUOTE;
  }

  /** A printed value followed by a delimiter determines the value's meaning and what follows it. */
  lemma {:induction false} PrintIsPrefixFree(c: Collation, a: Json, b: Json, x: Text, y: Text)
    requires WellFormed(a) && WellFormed(b) && Delimited(x) && Delimited(y)
    requires Print(c, a) + x == Print(c, b) + y
    ensures Meaning(a) == Meaning(b) && x == y
    decreases a, 3, 0
  {
    PrintStarts(c, a, x);
    PrintStarts(c, b, y);
    match a
    case Null => SplitEqual(NULL_TOKEN, NULL_TOKEN, x, y);
    case Bool(_) => SplitEqual(Print(c, a), Print(c, b), x, y);
    case Number(t) => NumbersAreDelimited(t, b.token, x, y);
    case Str(s) => PrintStringIsPrefixFree(s, b.text, x, y);
    case Arr(items) => ArraysArePrefixFree(c, a, b, x, y);
    case Obj(entries) => ObjectsArePrefixFree(c, a, b, x, y);
  }

  lemma {:induction false} ArraysArePrefixFree(c: Collation, a: Json, b: Json, x: Text, y: Text)
    requires a.Arr? && b.Arr? && WellFormed(a) && WellFormed(b)
    requires Print(c, a) + x == Print(c, b) + y
    ensures Meaning(a) == Meaning(b) && x == y
    decreases a, 1, 0
  {
    var p, q := PrintItems(c, a.items) + [CLOSE_BRACKET] + x, PrintItems(c, b.items) + [CLOSE_BRACKET] + y;
    Bracketed(OPEN_BRACKET, PrintItems(c, a.items), CLOSE_BRACKET, x);
    Bracketed(OPEN_BRACKET, PrintItems(c, b.items), CLOSE_BRACKET, y);
    SplitEqual([OPEN_BRACKET], [OPEN_BRACKET], p, q);
    ItemsArePrefixFree(c, a.items, b.items, x, y);
  }

  lemma SortedEntriesAreOwned(c: Collation, v: Json)
    requires v.Obj? && WellFormed(v)
    ensures forall i | 0 <= i < |v.entries| ::
              Sort(c, v.entries)[i].value < v && WellFormed(Sort(c, v.entries)[i].value)
  {
    SortKeepsEntries(c, v.entries);
    assert forall e | e in v.entries :: e.value < v && WellFormed(e.value);
  }

  /** Objects that print alike have the same keys in the same printed order. */
  lemma {:induction false} ObjectPrintsAlign(c: Collation, a: Json, b: Json, x: Text, y: Text)
    requires a.Obj? && b.Obj? && WellFormed(a) && WellFormed(b)
    requires Print(c, a) + x == Print(c, b) + y
    ensures x == y && |a.entries| == |b.entries|
    ensures forall i | 0 <= i < |a.entries| ::
              && Sort(c, a.entries)[i].key == Sort(c, b.entries)[i].key
              && Meaning(Sort(c, a.entries)[i].value) == Meaning(Sort(c, b.entries)[i].value)
    decreases a, 1, 0
  {
    var es, fs := Sort(c, a.entries), Sort(c, b.entries);
    SortedEntriesAreOwned(c, a);
    SortedEntriesAreOwned(c, b);
    var p, q := PrintMembers(c, es, a) + [CLOSE_BRACE] + x, PrintMembers(c, fs, b) + [CLOSE_BRACE] + y;
    Bracketed(OPEN_BRACE, PrintMembers(c, es, a), CLOSE_BRACE, x);
    Bracketed(OPEN_BRACE, PrintMembers(c, fs, b), CLOSE_BRACE, y);
    SplitEqual([OPEN_BRACE], [OPEN_BRACE], p, q);
    MembersArePrefixFree(c, es, fs, a, b, x, y);
  }

  lemma {:induction false} ObjectsArePrefixFree(c: Collation, a: Json, b: Json, x: Text, y: Text)
    requires a.Obj? && b.Obj? && WellFormed(a) && WellFormed(b)
    requires Print(c, a) + x == Print(c, b) + y
    ensures Meaning(a) == Meaning(b) && x == y
    decreases a, 2, 0
  {
    ObjectPrintsAlign(c, a, b, x, y);
    MeaningOfEntries(Sort(c, a.entries), Sort(c, b.entries));
    SortKeepsMeaning(c, a.entries);
    SortKeepsMeaning(c, b.entries);
  }

  lemma {:induction false} ItemsArePrefixFree(c: Collation, items: seq<Json>, others: seq<Json>, x: Text, y: Text)
    requires forall i | 0 <= i < |items| :: WellFormed(items[i])
    requires forall i | 0 <= i < |others| :: WellFormed(others[i])
    requires PrintItems(c, items) + [CLOSE_BRACKET] + x == PrintItems(c, others) + [CLOSE_BRACKET] + y
    ensures MeaningItems(items) == MeaningItems(others) && x == y
    decreases items
  {
    if items != [] { PrintItemsFirst(c, items, x); }
    if others != [] { PrintItemsFirst(c, others, y); }
    if items == [] || others == [] {
      assert [] + [CLOSE_BRACKET] + x == [CLOSE_BRACKET] + x && [] + [CLOSE_BRACKET] + y == [CLOSE_BRACKET] + y;
      SplitEqual([CLOSE_BRACKET], [CLOSE_BRACKET], x, y);
    } else {
      var restP, restQ := AfterItem(c, items, x), AfterItem(c, others, y);
      PrintIsPrefixFree(c, items[0], others[0], restP, restQ);
      assert restP[0] == restQ[0] && restP[1..] == restQ[1..];
      if |items| > 1 { ItemsArePrefixFree(c, items[1..], others[1..], x, y); }
    }
  }

  lemma {:induction false} MembersArePrefixFree(c: Collation, es: seq<Entry>, fs: seq<Entry>, a: Json, b: Json, x: Text, y: Text)
    requires forall i | 0 <= i < |es| :: es[i].value < a && WellFormed(es[i].value)
    requires forall i | 0 <= i < |fs| :: fs[i].value < b && WellFormed(fs[i].value)
    requires PrintMembers(c, es, a) + [CLOSE_BRACE] + x == PrintMembers(c, fs, b) + [CLOSE_BRACE] + y
    ensures |es| == |fs| && x == y
    ensures forall i | 0 <= i < |es| :: es[i].key == fs[i].key && Meaning(es[i].value) == Meaning(fs[i].value)
    decreases a, 0, |es|
  {
    hide Print, WellFormed, ShortEscape, Meaning, Insert, PrintItems, HexEscape, MeaningMembers;
    if es != [] { PrintMembersFirst(c, es, a, x); }
    if fs != [] { PrintMembersFirst(c, fs, b, y); }
    if es == [] || fs == [] {
      assert [] + [CLOSE_BRACE] + x == [CLOSE_BRACE] + x && [] + [CLOSE_BRACE] + y == [CLOSE_BRACE] + y;
      SplitEqual([CLOSE_BRACE], [CLOSE_BRACE], x, y);
    } else {
      var valueP, valueQ := AfterKey(c, es, a, x), AfterKey(c, fs, b, y);
      PrintStringIsPrefixFree(es[0].key, fs[0].key, [COLON] + valueP, [COLON] + valueQ);
      SplitEqual([COLON], [COLON], valueP, valueQ);
      var restP, restQ := AfterMember(c, es, a, x), AfterMember(c, fs, b, y);
      PrintIsPrefixFree(c, es[0].value, fs[0].value, restP, restQ);
      assert restP[0] == restQ[0] && restP[1..] == restQ[1..];
      if |es| > 1 { MembersArePrefixFree(c, es[1..], fs[1..], a, b, x, y); }
    }
  }

  // ---------- Sorting keeps the meaning of an object ----------

  lemma {:induction false} MeaningAt(entries: seq<Entry>, k: Text)
    ensures k in MeaningMembers(entries) <==> exists i :: 0 <= i < |entries| && entries[i].key == k
    ensures DistinctKeys(entries) ==>
              forall i | 0 <= i < |entries| && entries[i].key == k :: MeaningMembers(entries)[k] == Meaning(entries[i].value)
  {
    if entries != [] {
      MeaningAt(entries[1..], k);
      assert forall i | 1 <= i < |entries| :: entries[i] == entries[1..][i - 1];
      assert forall i | 0 <= i < |entries| - 1 :: entries[i + 1] == entries[1..][i];
    }
  }

  lemma DistinctKeysByCount(entries: seq<Entry>, other: seq<Entry>)
    requires DistinctKeys(entries) && multiset(entries) == multiset(other)
    ensures DistinctKeys(other)
  {
    forall i, j | 0 <= i < j < |other| ensures other[i].key != other[j].key {
      var e, f := other[i], other[j];
      assert e in multiset(entries) && f in multiset(entries);
      if e.key == f.key {
        assert e == f;
        TwiceIn(other, i, j);
        OnceIn(entries, e);
      }
    }
  }

  lemma TwiceIn(entries: seq<Entry>, i: nat, j: nat)
    requires i < j < |entries| && entries[i] == entries[j]
    ensures multiset(entries)[entries[i]] >= 2
  {
    assert entries == entries[..j] + [entries[j]] + entries[j + 1..];
    assert entries[i] == entries[..j][i];
    assert entries[i] in multiset(entries[..j]);
  }

  lemma {:induction false} OnceIn(entries: seq<Entry>, e: Entry)
    requires DistinctKeys(entries)
    ensures multiset(entries)[e] <= 1
  {
    if entries != [] {
      assert entries == [entries[0]] + entries[1..];
      OnceIn(entries[1..], e);
      if entries[0] == e { assert e !in entries[1..]; }
    }
  }

  lemma MeaningByEntries(entries: seq<Entry>, other: seq<Entry>)
    requires DistinctKeys(entries) && multiset(entries) == multiset(other)
    ensures DistinctKeys(other) && MeaningMembers(other) == MeaningMembers(entries)
  {
    DistinctKeysByCount(entries, other);
    forall k ensures k in MeaningMembers(other) <==> k in MeaningMembers(entries)
      ensures k in MeaningMembers(other) ==> MeaningMembers(other)[k] == MeaningMembers(entries)[k]
    {
      MeaningAt(entries, k);
      MeaningAt(other, k);
      if k in MeaningMembers(entries) {
        var i :| 0 <= i < |entries| && entries[i].key == k;
        assert entries[i] in multiset(other);
      }
      if k in MeaningMembers(other) {
        var i :| 0 <= i < |other| && other[i].key == k;
        assert other[i] in multiset(entries);
      }
    }
  }

  lemma SortKeepsMeaning(c: Collation, entries: seq<Entry>)
    requires DistinctKeys(entries)
    ensures DistinctKeys(Sort(c, entries))
    ensures MeaningMembers(Sort(c, entries)) == MeaningMembers(entries)
  {
    SortPermutes(c, entries);
    MeaningByEntries(entries, Sort(c, entries));
  }

  // ---------- Equal meanings have equal prints exactly when the collation separates the keys ----------

  /** The collation tells any two keys of one object apart. */
  predicate Separated(c: Collation, v: Json) {
    match v
    case Null => true
    case Bool(_) => true
    case Number(_) => true
    case Str(_) => true
    case Arr(items) => forall i | 0 <= i < |items| :: Separated(c, items[i])
    case Obj(entries) =>
      && (forall i, j | 0 <= i < j < |entries| :: c(entries[i].key) != c(entries[j].key))
      && (forall i | 0 <= i < |entries| :: Separated(c, entries[i].value))
  }

  predicate Ascending(c: Collation, entries: seq<Entry>) {
    forall i, j | 0 <= i < j < |entries| :: c(entries[i].key) < c(entries[j].key)
  }

  lemma {:induction false} SortIsOrdered(c: Collation, entries: seq<Entry>)
    ensures forall i, j | 0 <= i < j < |entries| :: c(Sort(c, entries)[i].key) <= c(Sort(c, entries)[j].key)
  {
    if entries != [] {
      SortIsOrdered(c, entries[1..]);
      InsertIsOrdered(c, entries[0], Sort(c, entries[1..]));
    }
  }

  lemma {:induction false} InsertIsOrdered(c: Collation, e: Entry, sorted: seq<Entry>)
    requires forall i, j | 0 <= i < j < |sorted| :: c(sorted[i].key) <= c(sorted[j].key)
    ensures forall i, j | 0 <= i < j <= |sorted| :: c(Insert(c, e, sorted)[i].key) <= c(Insert(c, e, sorted)[j].key)
  {
    if sorted != [] && c(e.key) > c(sorted[0].key) {
      InsertIsOrdered(c, e, sorted[1..]);
      InsertPermutes(c, e, sorted[1..]);
      var r := Insert(c, e, sorted[1..]);
      forall j | 0 <= j < |r| ensures c(sorted[0].key) <= c(r[j].key) {
        assert r[j] in multiset{e} + multiset(sorted[1..]);
      }
    }
  }

  lemma {:induction false} SameAscendingOrder(c: Collation, es: seq<Entry>, fs: seq<Entry>)
    requires Ascending(c, es) && Ascending(c, fs) && MeaningMembers(es) == MeaningMembers(fs)
    ensures |es| == |fs|
    ensures forall i | 0 <= i < |es| :: es[i].key == fs[i].key && Meaning(es[i].value) == Meaning(fs[i].value)
  {
    if es == [] {
      if fs != [] { MeaningAt(fs, fs[0].key); }
    } else {
      MeaningAt(es, es[0].key);
      MeaningAt(fs, es[0].key);
      assert fs != [];
      MeaningAt(es, fs[0].key);
      MeaningAt(fs, fs[0].key);
      assert es[0].key == fs[0].key;
      TailMeaning(c, es);
      TailMeaning(c, fs);
      SameAscendingOrder(c, es[1..], fs[1..]);
      assert forall i | 1 <= i < |es| :: es[i] == es[1..][i - 1] && fs[i] == fs[1..][i - 1];
    }
  }

  lemma TailMeaning(c: Collation, es: seq<Entry>)
    requires es != [] && Ascending(c, es)
    ensures MeaningMembers(es[1..]) == MeaningMembers(es) - {es[0].key}
  {
    MeaningAt(es[1..], es[0].key);
  }

  lemma {:induction false} SeparatedPrintsAgree(c: Collation, a: Json, b: Json)
    requires WellFormed(a) && WellFormed(b) && Separated(c, a) && Meaning(a) == Meaning(b)
    ensures Print(c, a) == Print(c, b)
    decreases a, 1, 0
  {
    match a
    case Null =>
    case Bool(_) =>
    case Number(_) =>
    case Str(_) =>
    case Arr(items) => ItemPrintsAgree(c, items, b.items);
    case Obj(_) =>
      SeparationIsByMeaning(c, a, b);
      SortedEntriesAscend(c, a);
      SortedEntriesAscend(c, b);
      SortKeepsMeaning(c, a.entries);
      SortKeepsMeaning(c, b.entries);
      SameAscendingOrder(c, Sort(c, a.entries), Sort(c, b.entries));
      SortedEntriesAreOwned(c, a);
      SortedEntriesAreOwned(c, b);
      SortedEntriesAreSeparated(c, a);
      MemberPrintsAgree(c, Sort(c, a.entries), Sort(c, b.entries), a, b);
  }

  lemma SortedEntriesAreSeparated(c: Collation, v: Json)
    requires v.Obj? && Separated(c, v)
    ensures forall i | 0 <= i < |v.entries| :: Separated(c, Sort(c, v.entries)[i].value)
  {
    SortKeepsEntries(c, v.entries);
    assert forall e | e in v.entries :: Separated(c, e.value);
  }

  /** Whether the keys of an object are told apart depends on the keys alone. */
  lemma SeparationIsByMeaning(c: Collation, a: Json, b: Json)
    requires a.Obj? && b.Obj? && WellFormed(b) && Separated(c, a) && Meaning(a) == Meaning(b)
    ensures forall i, j | 0 <= i < j < |b.entries| :: c(b.entries[i].key) != c(b.entries[j].key)
  {
    forall i, j | 0 <= i < j < |b.entries| ensures c(b.entries[i].key) != c(b.entries[j].key) {
      var k, l := b.entries[i].key, b.entries[j].key;
      MeaningAt(b.entries, k);
      MeaningAt(b.entries, l);
      MeaningAt(a.entries, k);
      MeaningAt(a.entries, l);
      var p :| 0 <= p < |a.entries| && a.entries[p].key == k;
      var q :| 0 <= q < |a.entries| && a.entries[q].key == l;
      assert p < q || q < p;
    }
  }

  lemma SortedEntriesAscend(c: Collation, v: Json)
    requires v.Obj? && WellFormed(v)
    requires forall i, j | 0 <= i < j < |v.entries| :: c(v.entries[i].key) != c(v.entries[j].key)
    ensures Ascending(c, Sort(c, v.entries))
  {
    hide WellFormed, Meaning, Insert, MeaningMembers;
    var es := Sort(c, v.entries);
    SortIsOrdered(c, v.entries);
    SortKeepsMeaning(c, v.entries);
    SortKeepsEntries(c, v.entries);
    forall i, j | 0 <= i < j < |es| ensures c(es[i].key) < c(es[j].key) {
    }
  }

  lemma {:induction false} ItemPrintsAgree(c: Collation, items: seq<Json>, others: seq<Json>)
    requires forall i | 0 <= i < |items| :: WellFormed(items[i]) && Separated(c, items[i])
    requires forall i | 0 <= i < |others| :: WellFormed(others[i])
    requires MeaningItems(items) == MeaningItems(others)
    ensures PrintItems(c, items) == PrintItems(c, others)
    decreases items
  {
    if items != [] {
      assert MeaningItems(items)[0] == Meaning(items[0]) && MeaningItems(others)[0] == Meaning(others[0]);
      assert MeaningItems(items)[1..] == MeaningItems(items[1..]) && MeaningItems(others)[1..] == MeaningItems(others[1..]);
      SeparatedPrintsAgree(c, items[0], others[0]);
      ItemPrintsAgree(c, items[1..], others[1..]);
    }
  }

  lemma {:induction false} MemberPrintsAgree(c: Collation, es: seq<Entry>, fs: seq<Entry>, a: Json, b: Json)
    requires |es| == |fs|
    requires forall i | 0 <= i < |es| :: es[i].value < a && WellFormed(es[i].value) && Separated(c, es[i].value)
    requires forall i | 0 <= i < |fs| :: fs[i].value < b && WellFormed(fs[i].value)
    requires forall i | 0 <= i < |es| :: es[i].key == fs[i].key && Meaning(es[i].value) == Meaning(fs[i].value)
    ensures PrintMembers(c, es, a) == PrintMembers(c, fs, b)
    decreases a, 0, |es|
  {
    if es != [] {
      SeparatedPrintsAgree(c, es[0].value, fs[0].value);
      MemberPrintsAgree(c, es[1..], fs[1..], a, b);
    }
  }

  // ---------- Without separation some equal value prints differently ----------

  predicate Before(entries: seq<Entry>, k: Text, l: Text) {
    exists i, j | 0 <= i < j < |entries| :: entries[i].key == k && entries[j].key == l
  }

  /** The sort is stable: entries the collation cannot tell apart keep their order. */
  lemma {:induction false} SortIsStable(c: Collation, entries: seq<Entry>, i: nat, j: nat)
    requires i < j < |entries| && c(entries[i].key) == c(entries[j].key)
    ensures Before(Sort(c, entries), entries[i].key, entries[j].key)
  {
    var rest := Sort(c, entries[1..]);
    SortIsOrdered(c, entries[1..]);
    if i == 0 {
      SortPermutes(c, entries[1..]);
      assert entries[j] == entries[1..][j - 1] && entries[j] in multiset(entries[1..]);
      assert entries[j] in multiset(rest);
      var q :| 0 <= q < |rest| && rest[q] == entries[j];
      InsertBefore(c, entries[0], rest, q);
    } else {
      assert entries[i] == entries[1..][i - 1] && entries[j] == entries[1..][j - 1];
      SortIsStable(c, entries[1..], i - 1, j - 1);
      var p, q :| 0 <= p < q < |rest| && rest[p].key == entries[i].key && rest[q].key == entries[j].key;
      InsertKeepsBefore(c, entries[0], rest, p, q);
    }
  }

  lemma BeforeAt(entries: seq<Entry>, i: nat, j: nat)
    requires i < j < |entries|
    ensures Before(entries, entries[i].key, entries[j].key)
  {}

  lemma {:induction false} InsertBefore(c: Collation, e: Entry, sorted: seq<Entry>, q: nat)
    requires forall i, j | 0 <= i < j < |sorted| :: c(sorted[i].key) <= c(sorted[j].key)
    requires q < |sorted| && c(e.key) == c(sorted[q].key)
    ensures Before(Insert(c, e, sorted), e.key, sorted[q].key)
  {
    var r := Insert(c, e, sorted);
    if c(e.key) <= c(sorted[0].key) {
      BeforeAt(r, 0, q + 1);
    } else {
      InsertBefore(c, e, sorted[1..], q - 1);
      BeforeInTail(r, e.key, sorted[q].key);
    }
  }

  lemma {:induction false} InsertKeepsBefore(c: Collation, e: Entry, sorted: seq<Entry>, p: nat, q: nat)
    requires p < q < |sorted|
    ensures Before(Insert(c, e, sorted), sorted[p].key, sorted[q].key)
  {
    hide Before;
    var r := Insert(c, e, sorted);
    if c(e.key) <= c(sorted[0].key) {
      BeforeAt(r, p + 1, q + 1);
    } else if p == 0 {
      var k := InsertKeepsEntry(c, e, sorted[1..], q - 1);
      BeforeAt(r, 0, k + 1);
    } else {
      InsertKeepsBefore(c, e, sorted[1..], p - 1, q - 1);
      BeforeInTail(r, sorted[p].key, sorted[q].key);
    }
  }

  lemma {:induction false} InsertKeepsEntry(c: Collation, e: Entry, sorted: seq<Entry>, q: nat) returns (k: nat)
    requires q < |sorted|
    ensures k <= |sorted| && Insert(c, e, sorted)[k] == sorted[q]
  {
    if c(e.key) <= c(sorted[0].key) {
      k := q + 1;
    } else if q == 0 {
      k := 0;
    } else {
      var i := InsertKeepsEntry(c, e, sorted[1..], q - 1);
      k := i + 1;
    }
  }

  lemma BeforeInTail(entries: seq<Entry>, k: Text, l: Text)
    requires entries != [] && Before(entries[1..], k, l)
    ensures Before(entries, k, l)
  {
    var i, j :| 0 <= i < j < |entries[1..]| && entries[1..][i].key == k && entries[1..][j].key == l;
    assert entries[i + 1].key == k && entries[j + 1].key == l;
  }

  function Reversed(entries: seq<Entry>): (r: seq<Entry>)
    ensures |r| == |entries|
    ensures forall i | 0 <= i < |r| :: r[i] == entries[|entries| - 1 - i]
  {
    seq(|entries|, i requires 0 <= i < |entries| => entries[|entries| - 1 - i])
  }

  lemma {:induction false} ReversedPermutes(entries: seq<Entry>)
    ensures multiset(Reversed(entries)) == multiset(entries)
  {
    if entries == [] {
      assert Reversed(entries) == [];
    } else {
      assert entries == [entries[0]] + entries[1..];
      assert Reversed(entries) == Reversed(entries[1..]) + [entries[0]];
      ReversedPermutes(entries[1..]);
    }
  }

  lemma ReversedIsEqualValue(entries: seq<Entry>)
    requires WellFormed(Obj(entries))
    ensures WellFormed(Obj(Reversed(entries))) && Meaning(Obj(Reversed(entries))) == Meaning(Obj(entries))
  {
    ReversedPermutes(entries);
    MeaningByEntries(entries, Reversed(entries));
  }

  lemma TiedKeysPrintByOrder(c: Collation, a: Json, i: nat, j: nat) returns (b: Json)
    requires a.Obj? && WellFormed(a) && i < j < |a.entries| && c(a.entries[i].key) == c(a.entries[j].key)
    ensures WellFormed(b) && Meaning(b) == Meaning(a) && Print(c, b) != Print(c, a)
  {
    hide PrintMembers, Print, ShortEscape, Meaning, Reversed, Insert, Before;
    b := Obj(Reversed(a.entries));
    ReversedIsEqualValue(a.entries);
    SortIsStable(c, a.entries, i, j);
    SortIsStable(c, b.entries, |a.entries| - 1 - j, |a.entries| - 1 - i);
    OppositeOrdersPrintApart(c, a, b, a.entries[i].key, a.entries[j].key);
  }

  lemma OppositeOrdersPrintApart(c: Collation, a: Json, b: Json, k: Text, l: Text)
    requires a.Obj? && b.Obj? && WellFormed(a) && WellFormed(b) && k != l
    requires Before(Sort(c, a.entries), k, l) && Before(Sort(c, b.entries), l, k)
    ensures Print(c, b) != Print(c, a)
  {
    SortKeepsMeaning(c, a.entries);
    if Print(c, b) == Print(c, a) {
      assert Print(c, a) + [] == Print(c, b) + [];
      ObjectPrintsAlign(c, a, b, [], []);
    }
  }

  lemma CancelSuffix(a: Text, b: Text, x: Text)
    requires a + x == b + x
    ensures a == b
  {
    assert |a| == |b|;
    SplitEqual(a, b, x, x);
  }

  lemma PrintItemsFirstTwo(c: Collation, items: seq<Json>)
    requires |items| > 1
    ensures PrintItems(c, items) == Print(c, items[0]) + ([COMMA] + PrintItems(c, items[1..]))
  {}

  lemma {:induction false} OneItemPrintsThrough(c: Collation, items: seq<Json>, i: nat, w: Json)
    requires i < |items| && Print(c, items[i]) != Print(c, w)
    ensures PrintItems(c, items) != PrintItems(c, items[i := w])
  {
    var others := items[i := w];
    if |items| > 1 && PrintItems(c, items) == PrintItems(c, others) {
      PrintItemsFirstTwo(c, items);
      PrintItemsFirstTwo(c, others);
      var p, q := PrintItems(c, items[1..]), PrintItems(c, others[1..]);
      if i == 0 {
        assert others[1..] == items[1..];
        CancelSuffix(Print(c, items[0]), Print(c, w), [COMMA] + p);
      } else {
        assert others[1..] == items[1..][i - 1 := w];
        OneItemPrintsThrough(c, items[1..], i - 1, w);
        SplitEqual(Print(c, items[0]), Print(c, items[0]), [COMMA] + p, [COMMA] + q);
        SplitEqual([COMMA], [COMMA], p, q);
      }
    }
  }

  lemma {:induction false} SameMembersPrintAlike(c: Collation, es: seq<Entry>, a: Json, b: Json)
    requires forall i | 0 <= i < |es| :: es[i].value < a && es[i].value < b
    ensures PrintMembers(c, es, a) == PrintMembers(c, es, b)
    decreases |es|
  {
    if es != [] { SameMembersPrintAlike(c, es[1..], a, b); }
  }

  lemma PrintMembersFirstTwo(c: Collation, es: seq<Entry>, owner: Json)
    requires |es| > 1 && forall i | 0 <= i < |es| :: es[i].value < owner
    ensures PrintMembers(c, es, owner)
         == PrintString(es[0].key) + [COLON] + (Print(c, es[0].value) + ([COMMA] + PrintMembers(c, es[1..], owner)))
  {}

  lemma {:induction false} OneMemberPrintsThrough(c: Collation, es: seq<Entry>, i: nat, w: Json, a: Json, b: Json)
    requires i < |es| && Print(c, es[i].value) != Print(c, w) && w < b
    requires forall j | 0 <= j < |es| :: es[j].value < a && (j != i ==> es[j].value < b)
    ensures PrintMembers(c, es, a) != PrintMembers(c, es[i := Entry(es[i].key, w)], b)
    decreases |es|
  {
    var fs := es[i := Entry(es[i].key, w)];
    var key := PrintString(es[0].key) + [COLON];
    var v, u := Print(c, es[0].value), Print(c, fs[0].value);
    if PrintMembers(c, es, a) == PrintMembers(c, fs, b) {
      if |es| == 1 {
        SplitEqual(key, key, v, u);
      } else {
        PrintMembersFirstTwo(c, es, a);
        PrintMembersFirstTwo(c, fs, b);
        var p, q := PrintMembers(c, es[1..], a), PrintMembers(c, fs[1..], b);
        SplitEqual(key, key, v + ([COMMA] + p), u + ([COMMA] + q));
        if i == 0 {
          assert fs[1..] == es[1..];
          SameMembersPrintAlike(c, es[1..], a, b);
          CancelSuffix(v, u, [COMMA] + p);
        } else {
          assert fs[1..] == es[1..][i - 1 := Entry(es[i].key, w)];
          OneMemberPrintsThrough(c, es[1..], i - 1, w, a, b);
          SplitEqual(v, u, [COMMA] + p, [COMMA] + q);
          SplitEqual([COMMA], [COMMA], p, q);
        }
      }
    }
  }

  /** Changing the value of one entry changes one place of the sorted entries. */
  lemma {:induction false} InsertReplaced(c: Collation, e: Entry, f: Entry, sorted: seq<Entry>) returns (p: nat)
    requires e.key == f.key
    ensures p <= |sorted| && Insert(c, e, sorted)[p] == e
    ensures Insert(c, f, sorted) == Insert(c, e, sorted)[p := f]
  {
    if sorted == [] || c(e.key) <= c(sorted[0].key) {
      p := 0;
    } else {
      var q := InsertReplaced(c, e, f, sorted[1..]);
      p := q + 1;
    }
  }

  lemma {:induction false} InsertIntoReplaced(c: Collation, e: Entry, sorted: seq<Entry>, i: nat, f: Entry) returns (p: nat)
    requires i < |sorted| && sorted[i].key == f.key
    ensures p <= |sorted| && Insert(c, e, sorted)[p] == sorted[i]
    ensures Insert(c, e, sorted[i := f]) == Insert(c, e, sorted)[p := f]
  {
    if c(e.key) <= c(sorted[0].key) {
      p := i + 1;
      assert [e] + sorted[i := f] == ([e] + sorted)[p := f];
    } else if i == 0 {
      p := 0;
    } else {
      assert sorted[i := f][1..] == sorted[1..][i - 1 := f];
      var q := InsertIntoReplaced(c, e, sorted[1..], i - 1, f);
      p := q + 1;
    }
  }

  lemma {:induction false} SortReplaced(c: Collation, entries: seq<Entry>, i: nat, f: Entry) returns (p: nat)
    requires i < |entries| && entries[i].key == f.key
    ensures p < |entries| && Sort(c, entries)[p] == entries[i]
    ensures Sort(c, entries[i := f]) == Sort(c, entries)[p := f]
  {
    if i == 0 {
      assert entries[i := f][1..] == entries[1..];
      p := InsertReplaced(c, entries[0], f, Sort(c, entries[1..]));
    } else {
      assert entries[i := f][1..] == entries[1..][i - 1 := f];
      var q := SortReplaced(c, entries[1..], i - 1, f);
      p := InsertIntoReplaced(c, entries[0], Sort(c, entries[1..]), q, f);
    }
  }

  lemma MeaningReplacedItem(items: seq<Json>, i: nat, w: Json)
    requires i < |items| && Meaning(w) == Meaning(items[i])
    ensures MeaningItems(items[i := w]) == MeaningItems(items)
  {
    if i > 0 {
      assert items[i := w][1..] == items[1..][i - 1 := w];
      MeaningReplacedItem(items[1..], i - 1, w);
    } else {
      assert items[i := w][1..] == items[1..];
    }
  }

  /** An object with two tied keys, at any depth, has an equal value that prints differently. */
  lemma {:induction false} TiesPrintByOrder(c: Collation, a: Json) returns (b: Json)
    requires WellFormed(a) && !Separated(c, a)
    ensures WellFormed(b) && Meaning(b) == Meaning(a) && Print(c, b) != Print(c, a)
    decreases a
  {
    hide PrintMembers, ShortEscape, Insert, PrintItems;
    match a
    case Arr(items) =>
      var i :| 0 <= i < |items| && !Separated(c, items[i]);
      var w := TiesPrintByOrder(c, items[i]);
      b := Arr(items[i := w]);
      MeaningReplacedItem(items, i, w);
      OneItemPrintsThrough(c, items, i, w);
      if Print(c, b) == Print(c, a) { Unwrap(OPEN_BRACKET, CLOSE_BRACKET, PrintItems(c, items), PrintItems(c, b.items)); }
    case Obj(entries) =>
      if tied :| 0 <= tied < |entries| && exists j | tied < j < |entries| :: c(entries[tied].key) == c(entries[j].key) {
        var j :| tied < j < |entries| && c(entries[tied].key) == c(entries[j].key);
        b := TiedKeysPrintByOrder(c, a, tied, j);
      } else {
        var i :| 0 <= i < |entries| && !Separated(c, entries[i].value);
        var w := TiesPrintByOrder(c, entries[i].value);
        b := NestedTiePrints(c, a, i, w);
      }
  }

  lemma NestedTiePrints(c: Collation, a: Json, i: nat, w: Json) returns (b: Json)
    requires a.Obj? && WellFormed(a) && i < |a.entries| && WellFormed(w)
    requires Meaning(w) == Meaning(a.entries[i].value) && Print(c, w) != Print(c, a.entries[i].value)
    ensures WellFormed(b) && Meaning(b) == Meaning(a) && Print(c, b) != Print(c, a)
  {
    hide PrintMembers, ShortEscape, Insert, PrintItems, HexEscape, MeaningMembers, Sort;
    var f := Entry(a.entries[i].key, w);
    b := Obj(a.entries[i := f]);
    MeaningOfEntries(a.entries, b.entries);
    var p := SortReplaced(c, a.entries, i, f);
    SortedEntriesAreOwned(c, a);
    SortedEntriesAreOwned(c, b);
    var es := Sort(c, a.entries);
    assert forall j | 0 <= j < |es| && j != p :: es[j] == Sort(c, b.entries)[j];
    assert Sort(c, b.entries)[p] == f;
    OneMemberPrintsThrough(c, es, p, w, a, b);
    if Print(c, b) == Print(c, a) { Unwrap(OPEN_BRACE, CLOSE_BRACE, PrintMembers(c, es, a), PrintMembers(c, Sort(c, b.entries), b)); }
  }

  lemma Unwrap(open: CodeUnit, close: CodeUnit, p: Text, q: Text)
    requires [open] + p + [close] == [open] + q + [close]
    ensures p == q
  {
    CancelSuffix([open] + p, [open] + q, [close]);
    SplitEqual([open], [open], p, q);
  }

  // ---------- The decision the reducer and the command table make ----------

  /** A repeat is never taken for the same payload when its value differs. */
  lemma EqualPrintsAreEqualValues(c: Collation, a: Json, b: Json)
    requires WellFormed(a) && WellFormed(b) && Print(c, a) == Print(c, b)
    ensures Meaning(a) == Meaning(b)
  {
    assert Print(c, a) + [] == Print(c, b) + [];
    PrintIsPrefixFree(c, a, b, [], []);
  }

  /** Comparing prints decides equality of values against every other payload
      exactly when the collation separates the keys of each object of the stored one. */
  lemma PrintDecidesEquality(c: Collation, a: Json)
    requires WellFormed(a)
    ensures Separated(c, a)
       <==> forall b: Json | WellFormed(b) :: Print(c, a) == Print(c, b) <==> Meaning(a) == Meaning(b)
  {
    if Separated(c, a) {
      forall b: Json | WellFormed(b) ensures Print(c, a) == Print(c, b) <==> Meaning(a) == Meaning(b) {
        if Print(c, a) == Print(c, b) { EqualPrintsAreEqualValues(c, a, b); }
        if Meaning(a) == Meaning(b) { SeparatedPrintsAgree(c, a, b); }
      }
    } else {
      var b := TiesPrintByOrder(c, a);
    }
  }
}
