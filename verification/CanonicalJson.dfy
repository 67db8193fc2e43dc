/**
 * The canonical JSON text behind payload hashes. Strings are sequences of UTF-16 code units. A finite number
 * is represented by the text String() gives it, so 0 and -0 are one number here as they are in the output.
 */
module CanonicalJson {

  import opened Prelude

  type Unit = x: int | 0 <= x < 0x10000

  type Text = seq<Unit>

  datatype Value =
    | Undefined
    | Hole                          // a missing element of a sparse array
    | Null
    | Bool(b: bool)
    | Number(text: Text)
    | NonFinite
    | Str(s: Text)
    | Arr(items: seq<Value>)
    | Obj(entries: seq<Entry>)      // a plain record, entries in insertion order
    | Other                         // functions, symbols, class instances and the like

  datatype Entry = Entry(key: Text, value: Value)

  /** What is left of a value when the order of keys is forgotten. */
  datatype Json =
    | JNull
    | JHole
    | JBool(b: bool)
    | JNumber(text: Text)
    | JStr(s: Text)
    | JArr(items: seq<Json>)
    | JObj(members: map<Text, Json>)

  const QUOTE: Unit := 34
  const COMMA: Unit := 44
  const COLON: Unit := 58
  const OPEN_BRACKET: Unit := 91
  const BACKSLASH: Unit := 92
  const CLOSE_BRACKET: Unit := 93
  const OPEN_BRACE: Unit := 123
  const CLOSE_BRACE: Unit := 125
  const NULL_TEXT: Text := [110, 117, 108, 108]
  const TRUE_TEXT: Text := [116, 114, 117, 101]
  const FALSE_TEXT: Text := [102, 97, 108, 115, 101]

  /** Digits, plus, minus, point and e. */
  predicate NumberUnit(u: Unit) {
    48 <= u <= 57 || u == 43 || u == 45 || u == 46 || u == 101
  }

  // ---- Values that can exist ----

  predicate DistinctKeys(entries: seq<Entry>) {
    forall i, j :: 0 <= i < j < |entries| ==> entries[i].key != entries[j].key
  }

  /** Numbers have a number's text, keys are distinct, holes are array elements. */
  predicate Proper(v: Value) {
    match v
    case Hole => false
    case Number(text) => text != [] && forall i :: 0 <= i < |text| ==> NumberUnit(text[i])
    case Arr(items) => forall i :: 0 <= i < |items| ==> items[i].Hole? || Proper(items[i])
    case Obj(entries) => DistinctKeys(entries) && forall i :: 0 <= i < |entries| ==> Proper(entries[i].value)
    case _ => true
  }

  // ---- Normal forms ----

  function Normalize(v: Value): Json
    decreases v
  {
    match v
    case Hole => JHole
    case Bool(b) => JBool(b)
    case Number(text) => JNumber(text)
    case Str(s) => JStr(s)
    case Arr(items) => JArr(if items == [Hole] then [] else NormalItems(items))
    case Obj(entries) => JObj(NormalMembers(entries))
    case _ => JNull
  }

  function NormalItems(items: seq<Value>): seq<Json>
    decreases items
  {
    if items == [] then [] else [Normalize(items[0])] + NormalItems(items[1..])
  }

  /** Undefined members are dropped. */
  function NormalMembers(entries: seq<Entry>): map<Text, Json>
    decreases entries
  {
    if entries == [] then map[]
    else
      var rest := NormalMembers(entries[1..]);
      if entries[0].value.Undefined? then rest else rest[entries[0].key := Normalize(entries[0].value)]
  }

  // ---- Strings ----

  predicate HighSurrogate(u: Unit) {
    0xD800 <= u <= 0xDBFF
  }

  predicate LowSurrogate(u: Unit) {
    0xDC00 <= u <= 0xDFFF
  }

  function HexDigit(d: nat): Unit
    requires d < 16
  {
    if d < 10 then 48 + d else 87 + d
  }

  function UnicodeEscape(u: Unit): Text {
    [BACKSLASH, 117, HexDigit(u / 4096), HexDigit(u / 256 % 16), HexDigit(u / 16 % 16), HexDigit(u % 16)]
  }

  /** One code unit outside a surrogate pair. */
  function Escape(u: Unit): Text {
    if u == 8 then [BACKSLASH, 98]
    else if u == 9 then [BACKSLASH, 116]
    else if u == 10 then [BACKSLASH, 110]
    else if u == 12 then [BACKSLASH, 102]
    else if u == 13 then [BACKSLASH, 114]
    else if u == QUOTE || u == BACKSLASH then [BACKSLASH, u]
    else if u < 32 || HighSurrogate(u) || LowSurrogate(u) then UnicodeEscape(u)
    else [u]
  }

  function EscapeAll(s: Text): Text {
    if s == [] then []
    else if |s| >= 2 && HighSurrogate(s[0]) && LowSurrogate(s[1]) then [s[0], s[1]] + EscapeAll(s[2..])
    else Escape(s[0]) + EscapeAll(s[1..])
  }

  /** JSON.stringify of a string. */
  function Quote(s: Text): Text {
    [QUOTE] + EscapeAll(s) + [QUOTE]
  }

  // ---- Sorting by key ----

  /** Code unit by code unit. */
  predicate Less(a: Text, b: Text) {
    b != [] && (a == [] || a[0] < b[0] || (a[0] == b[0] && Less(a[1..], b[1..])))
  }

  function Insert(e: Entry, sorted: seq<Entry>): seq<Entry> {
    if sorted == [] || Less(e.key, sorted[0].key) then [e] + sorted else [sorted[0]] + Insert(e, sorted[1..])
  }

  function Sort(entries: seq<Entry>): seq<Entry> {
    if entries == [] then [] else Insert(entries[0], Sort(entries[1..]))
  }

  function Kept(entries: seq<Entry>): seq<Entry> {
    if entries == [] then []
    else (if entries[0].value.Undefined? then [] else [entries[0]]) + Kept(entries[1..])
  }

  lemma InsertMembers(e: Entry, sorted: seq<Entry>)
    ensures forall x :: x in Insert(e, sorted) <==> x == e || x in sorted
  {
    if sorted != [] {
      assert sorted == [sorted[0]] + sorted[1..];
    }
  }

  lemma SortMembers(entries: seq<Entry>)
    ensures forall x :: x in Sort(entries) <==> x in entries
  {
    if entries != [] {
      assert entries == [entries[0]] + entries[1..];
      InsertMembers(entries[0], Sort(entries[1..]));
    }
  }

  lemma KeptMembers(entries: seq<Entry>)
    ensures forall x :: x in Kept(entries) <==> x in entries && !x.value.Undefined?
  {
    if entries != [] {
      assert entries == [entries[0]] + entries[1..];
    }
  }

  // ---- Printing ----

  /** The keys kept, in order, with their values. */
  function Sorted(entries: seq<Entry>): (r: seq<Entry>)
    ensures forall x :: x in r <==> x in entries && !x.value.Undefined?
  {
    KeptMembers(entries);
    SortMembers(Kept(entries));
    Sort(Kept(entries))
  }

  function Canonicalize(v: Value): Text
    decreases v, 1, 0
  {
    match v
    case Bool(b) => if b then TRUE_TEXT else FALSE_TEXT
    case Number(text) => text
    case Str(s) => Quote(s)
    case Arr(items) => [OPEN_BRACKET] + ItemsText(items) + [CLOSE_BRACKET]
    case Obj(entries) => [OPEN_BRACE] + MembersText(Sorted(entries), v) + [CLOSE_BRACE]
    case _ => NULL_TEXT
  }

  /** map and join leave nothing where an element is missing. */
  function ItemText(item: Value): Text
    decreases item, 2, 0
  {
    if item.Hole? then [] else Canonicalize(item)
  }

  function ItemsText(items: seq<Value>): Text
    decreases items, 0, 0
  {
    if items == [] then []
    else if |items| == 1 then ItemText(items[0])
    else ItemText(items[0]) + [COMMA] + ItemsText(items[1..])
  }

  function MembersText(members: seq<Entry>, whole: Value): Text
    requires forall m :: m in members ==> m.value < whole
    decreases whole, 0, |members|
  {
    if members == [] then []
    else
      var first := Quote(members[0].key) + [COLON] + Canonicalize(members[0].value);
      if |members| == 1 then first else first + [COMMA] + MembersText(members[1..], whole)
  }

  // ---- The order of keys ----

  lemma {:induction false} LessIsTotal(a: Text, b: Text)
    ensures !Less(a, a)
    ensures a != b ==> Less(a, b) != Less(b, a)
    decreases |a|
  {
    if a != [] {
      LessIsTotal(a[1..], a[1..]);
      if b != [] && a[0] == b[0] {
        assert a == [a[0]] + a[1..] && b == [b[0]] + b[1..];
        LessIsTotal(a[1..], b[1..]);
      }
    }
  }

  lemma {:induction false} LessIsTransitive(a: Text, b: Text, c: Text)
    requires Less(a, b) && Less(b, c)
    ensures Less(a, c)
    decreases |a|
  {
    if a != [] && a[0] == b[0] && b[0] == c[0] {
      LessIsTransitive(a[1..], b[1..], c[1..]);
    }
  }

  ghost predicate Ascending(entries: seq<Entry>) {
    forall i, j :: 0 <= i < j < |entries| ==> Less(entries[i].key, entries[j].key)
  }

  lemma {:induction false} InsertAscends(e: Entry, sorted: seq<Entry>)
    requires Ascending(sorted) && forall i :: 0 <= i < |sorted| ==> sorted[i].key != e.key
    ensures Ascending(Insert(e, sorted))
  {
    hide Less;
    if sorted != [] {
      var rest := sorted[1..];
      LessIsTotal(e.key, sorted[0].key);
      if Less(e.key, sorted[0].key) {
        forall j | 0 < j < |sorted|
          ensures Less(e.key, sorted[j].key)
        {
          LessIsTransitive(e.key, sorted[0].key, sorted[j].key);
        }
      } else {
        InsertAscends(e, rest);
        InsertMembers(e, rest);
        var r := Insert(e, rest);
        forall j | 0 <= j < |r|
          ensures Less(sorted[0].key, r[j].key)
        {
          assert r[j] in r;
          if r[j] != e {
            var k :| 0 <= k < |rest| && rest[k] == r[j];
            assert sorted[k + 1] == r[j];
          }
        }
      }
    }
  }

  lemma {:induction false} SortAscends(entries: seq<Entry>)
    requires DistinctKeys(entries)
    ensures Ascending(Sort(entries))
  {
    hide Insert;
    if entries != [] {
      var rest := entries[1..];
      SortAscends(rest);
      SortMembers(rest);
      forall i | 0 <= i < |Sort(rest)|
        ensures Sort(rest)[i].key != entries[0].key
      {
        assert Sort(rest)[i] in rest;
      }
      InsertAscends(entries[0], Sort(rest));
    }
  }

  lemma {:induction false} KeptIsDistinct(entries: seq<Entry>)
    requires DistinctKeys(entries)
    ensures DistinctKeys(Kept(entries))
  {
    if entries != [] {
      KeptIsDistinct(entries[1..]);
      KeptMembers(entries[1..]);
      var rest := Kept(entries[1..]);
      forall i | 0 <= i < |rest|
        ensures rest[i].key != entries[0].key
      {
        assert rest[i] in rest;
      }
    }
  }

  lemma SortedAscends(entries: seq<Entry>)
    requires DistinctKeys(entries)
    ensures Ascending(Sorted(entries)) && DistinctKeys(Sorted(entries))
  {
    KeptIsDistinct(entries);
    SortAscends(Kept(entries));
    forall i, j | 0 <= i < j < |Sorted(entries)|
      ensures Sorted(entries)[i].key != Sorted(entries)[j].key
    {
      LessIsTotal(Sorted(entries)[i].key, Sorted(entries)[j].key);
    }
  }

  // ---- The members of a record as a map ----

  lemma {:induction false} KeptIsMember(entries: seq<Entry>, e: Entry)
    requires DistinctKeys(entries) && e in entries && !e.value.Undefined?
    ensures e.key in NormalMembers(entries) && NormalMembers(entries)[e.key] == Normalize(e.value)
  {
    hide Normalize;
    var i :| 0 <= i < |entries| && entries[i] == e;
    if i > 0 {
      assert entries[1..][i - 1] == e;
      KeptIsMember(entries[1..], e);
    }
  }

  lemma {:induction false} MemberIsKept(entries: seq<Entry>, k: Text) returns (e: Entry)
    requires k in NormalMembers(entries)
    ensures e in entries && !e.value.Undefined? && e.key == k
  {
    hide Normalize;
    if !entries[0].value.Undefined? && entries[0].key == k {
      e := entries[0];
    } else {
      e := MemberIsKept(entries[1..], k);
    }
  }

  /** Every kept entry is in the map, and nothing else. */
  lemma MembersAre(entries: seq<Entry>)
    requires DistinctKeys(entries)
    ensures forall e :: e in entries && !e.value.Undefined? ==>
              e.key in NormalMembers(entries) && NormalMembers(entries)[e.key] == Normalize(e.value)
    ensures forall k :: k in NormalMembers(entries) ==>
              exists e :: e in entries && !e.value.Undefined? && e.key == k
  {
    hide Normalize, NormalMembers, DistinctKeys;
    forall e | e in entries && !e.value.Undefined?
      ensures e.key in NormalMembers(entries) && NormalMembers(entries)[e.key] == Normalize(e.value)
    {
      KeptIsMember(entries, e);
    }
    forall k | k in NormalMembers(entries)
      ensures exists e :: e in entries && !e.value.Undefined? && e.key == k
    {
      var e := MemberIsKept(entries, k);
    }
  }

  lemma SameMembers(a: seq<Entry>, b: seq<Entry>)
    requires DistinctKeys(a) && DistinctKeys(b)
    requires forall e: Entry :: !e.value.Undefined? ==> (e in a <==> e in b)
    ensures NormalMembers(a) == NormalMembers(b)
  {
    hide Normalize, NormalMembers, DistinctKeys;
    MembersAre(a);
    MembersAre(b);
    forall k | k in NormalMembers(a)
      ensures k in NormalMembers(b) && NormalMembers(b)[k] == NormalMembers(a)[k]
    {
      var e :| e in a && !e.value.Undefined? && e.key == k;
      assert e in b;
    }
    forall k | k in NormalMembers(b)
      ensures k in NormalMembers(a)
    {
      var e :| e in b && !e.value.Undefined? && e.key == k;
      assert e in a;
    }
  }

  // ---- Reading the text back ----

  function StartsWith(t: Text, prefix: Text): (r: bool)
    ensures r ==> |prefix| <= |t|
  {
    |prefix| <= |t| && t[..|prefix|] == prefix
  }

  function HexValue(u: Unit): Option<nat> {
    if 48 <= u <= 57 then Some(u - 48) else if 97 <= u <= 102 then Some(u - 87) else None
  }

  /** The unit named by an escape, and how long the escape is. */
  function ReadEscape(t: Text): Option<(Unit, nat)>
    requires t != [] && t[0] == BACKSLASH
    ensures ReadEscape(t).Some? ==> 2 <= ReadEscape(t).value.1 <= |t|
  {
    if |t| < 2 then None
    else if t[1] == 117 then
      if |t| < 6 then None
      else
        var (a, b, c, d) := (HexValue(t[2]), HexValue(t[3]), HexValue(t[4]), HexValue(t[5]));
        if a.Some? && b.Some? && c.Some? && d.Some? then
          HexBound(t[2]); HexBound(t[3]); HexBound(t[4]); HexBound(t[5]);
          Some((a.value * 4096 + b.value * 256 + c.value * 16 + d.value, 6))
        else None
    else if t[1] == 98 then Some((8, 2))
    else if t[1] == 116 then Some((9, 2))
    else if t[1] == 110 then Some((10, 2))
    else if t[1] == 102 then Some((12, 2))
    else if t[1] == 114 then Some((13, 2))
    else if t[1] == QUOTE || t[1] == BACKSLASH then Some((t[1], 2))
    else None
  }

  lemma HexBound(u: Unit)
    ensures HexValue(u).Some? ==> HexValue(u).value < 16
  {
  }

  /** The string up to the closing quote, and the text behind it. */
  function ReadString(t: Text): (r: Option<(Text, Text)>)
    ensures r.Some? ==> |r.value.1| < |t|
    decreases |t|
  {
    if t == [] then None
    else if t[0] == QUOTE then Some(([], t[1..]))
    else if t[0] == BACKSLASH then
      var escape := ReadEscape(t);
      if escape == None then None
      else
        var rest := ReadString(t[escape.value.1..]);
        if rest == None then None else Some(([escape.value.0] + rest.value.0, rest.value.1))
    else
      var rest := ReadString(t[1..]);
      if rest == None then None else Some(([t[0]] + rest.value.0, rest.value.1))
  }

  /** The longest number at the front. */
  function NumberLength(t: Text): (n: nat)
    ensures n <= |t|
  {
    if t != [] && NumberUnit(t[0]) then 1 + NumberLength(t[1..]) else 0
  }

  /** A reader of JSON that shares nothing with the printer. */
  function ReadValue(t: Text): (r: Option<(Json, Text)>)
    ensures r.Some? ==> |r.value.1| < |t|
    decreases |t|, 0
  {
    if t == [] then None
    else if t[0] == NULL_TEXT[0] then if StartsWith(t, NULL_TEXT) then Some((JNull, t[4..])) else None
    else if t[0] == TRUE_TEXT[0] then if StartsWith(t, TRUE_TEXT) then Some((JBool(true), t[4..])) else None
    else if t[0] == FALSE_TEXT[0] then if StartsWith(t, FALSE_TEXT) then Some((JBool(false), t[5..])) else None
    else if t[0] == QUOTE then
      var s := ReadString(t[1..]);
      if s == None then None else Some((JStr(s.value.0), s.value.1))
    else if NumberUnit(t[0]) then Some((JNumber(t[..NumberLength(t)]), t[NumberLength(t)..]))
    else if t[0] == OPEN_BRACKET then
      if |t| > 1 && t[1] == CLOSE_BRACKET then Some((JArr([]), t[2..]))
      else
        var items := ReadItems(t[1..]);
        if items == None then None else Some((JArr(items.value.0), items.value.1))
    else if t[0] == OPEN_BRACE then
      if |t| > 1 && t[1] == CLOSE_BRACE then Some((JObj(map[]), t[2..]))
      else
        var members := ReadMembers(t[1..]);
        if members == None then None else Some((JObj(members.value.0), members.value.1))
    else None
  }

  /** One element, which may be missing. */
  function ReadItem(t: Text): (r: Option<(Json, Text)>)
    ensures r.Some? ==> |r.value.1| <= |t|
    decreases |t|, 1
  {
    if t != [] && (t[0] == COMMA || t[0] == CLOSE_BRACKET) then Some((JHole, t)) else ReadValue(t)
  }

  function ReadItems(t: Text): (r: Option<(seq<Json>, Text)>)
    ensures r.Some? ==> |r.value.1| < |t|
    decreases |t|, 2
  {
    var first := ReadItem(t);
    if first == None || first.value.1 == [] then None
    else
      var (item, rest) := first.value;
      if rest[0] == CLOSE_BRACKET then Some(([item], rest[1..]))
      else if rest[0] == COMMA then
        var more := ReadItems(rest[1..]);
        if more == None then None else Some(([item] + more.value.0, more.value.1))
      else None
  }

  function ReadMembers(t: Text): (r: Option<(map<Text, Json>, Text)>)
    ensures r.Some? ==> |r.value.1| < |t|
    decreases |t|, 2
  {
    if t == [] || t[0] != QUOTE then None
    else
      var key := ReadString(t[1..]);
      if key == None || key.value.1 == [] || key.value.1[0] != COLON then None
      else
        var first := ReadValue(key.value.1[1..]);
        if first == None || first.value.1 == [] then None
        else
          var (item, rest) := first.value;
          if rest[0] == CLOSE_BRACE then Some((map[key.value.0 := item], rest[1..]))
          else if rest[0] == COMMA then
            var more := ReadMembers(rest[1..]);
            if more == None then None else Some((more.value.0[key.value.0 := item], more.value.1))
          else None
  }

  // ---- Strings read back ----

  lemma HexReads(d: nat)
    requires d < 16
    ensures HexValue(HexDigit(d)) == Some(d)
  {
  }

  lemma HexDigitsSum(u: Unit)
    ensures u / 4096 < 16
    ensures u / 4096 * 4096 + u / 256 % 16 * 256 + u / 16 % 16 * 16 + u % 16 == u
  {
    assert u / 256 / 16 == u / 4096 && u / 16 / 16 == u / 256;
  }

  lemma UnicodeEscapeReads(u: Unit, rest: Text)
    ensures ReadEscape(UnicodeEscape(u) + rest) == Some((u, 6))
  {
    var t := UnicodeEscape(u) + rest;
    HexDigitsSum(u);
    var (a, b, c, d) := (u / 4096, u / 256 % 16, u / 16 % 16, u % 16);
    HexReads(a);
    HexReads(b);
    HexReads(c);
    HexReads(d);
    assert t[2] == HexDigit(a) && t[3] == HexDigit(b) && t[4] == HexDigit(c) && t[5] == HexDigit(d);
    hide HexDigit, HexValue, UnicodeEscape;
  }

  lemma EscapeReads(u: Unit, rest: Text)
    requires !Plain(u) || HighSurrogate(u) || LowSurrogate(u)
    ensures |Escape(u)| >= 2 && Escape(u)[0] == BACKSLASH
    ensures ReadEscape(Escape(u) + rest) == Some((u, |Escape(u)|))
  {
    if Escape(u) == UnicodeEscape(u) {
      UnicodeEscapeReads(u, rest);
      hide ReadEscape, HexDigit;
    } else {
      assert (Escape(u) + rest)[1] == Escape(u)[1];
      hide HexDigit, HexValue;
    }
  }

  predicate Plain(u: Unit) {
    u >= 32 && u != QUOTE && u != BACKSLASH
  }

  lemma PlainReads(u: Unit, more: Text)
    requires u != QUOTE && u != BACKSLASH && ReadString(more).Some?
    ensures ReadString([u] + more) == Some(([u] + ReadString(more).value.0, ReadString(more).value.1))
  {
    assert ([u] + more)[1..] == more;
  }

  lemma EscapedReads(u: Unit, more: Text)
    requires ReadString(more).Some?
    ensures ReadString(Escape(u) + more) == Some(([u] + ReadString(more).value.0, ReadString(more).value.1))
  {
    if Plain(u) && !HighSurrogate(u) && !LowSurrogate(u) {
      PlainReads(u, more);
    } else {
      EscapeReads(u, more);
      hide Escape;
      EscapeThenReads(Escape(u), u, more);
    }
  }

  lemma EscapeThenReads(e: Text, u: Unit, more: Text)
    requires |e| >= 2 && e[0] == BACKSLASH && ReadEscape(e + more) == Some((u, |e|)) && ReadString(more).Some?
    ensures ReadString(e + more) == Some(([u] + ReadString(more).value.0, ReadString(more).value.1))
  {
    assert (e + more)[|e|..] == more;
    hide ReadEscape;
  }

  /** Taking a text apart from the front. */
  lemma Regroup(a: Text, b: Text, c: Text, d: Text)
    ensures a + b + c + d == a + (b + c + d)
  {
  }

  predicate PairOpens(s: Text) {
    |s| >= 2 && HighSurrogate(s[0]) && LowSurrogate(s[1])
  }

  lemma PairHead(s: Text)
    requires PairOpens(s)
    ensures EscapeAll(s) == [s[0], s[1]] + EscapeAll(s[2..]) && s == [s[0]] + ([s[1]] + s[2..])
    ensures s[0] != QUOTE && s[0] != BACKSLASH && s[1] != QUOTE && s[1] != BACKSLASH
  {
  }

  lemma UnitHead(s: Text)
    requires s != [] && !PairOpens(s)
    ensures EscapeAll(s) == Escape(s[0]) + EscapeAll(s[1..]) && s == [s[0]] + s[1..]
  {
  }

  lemma EndReads(rest: Text)
    ensures ReadString(EscapeAll([]) + [QUOTE] + rest) == Some(([], rest))
  {
    assert EscapeAll([]) + [QUOTE] + rest == [QUOTE] + rest;
  }

  lemma {:induction false} StringReads(s: Text, rest: Text)
    ensures ReadString(EscapeAll(s) + [QUOTE] + rest) == Some((s, rest))
    decreases |s|
  {
    hide ReadString, Escape, EscapeAll;
    if s == [] {
      EndReads(rest);
    } else if PairOpens(s) {
      PairHead(s);
      hide PairOpens;
      var more := EscapeAll(s[2..]) + [QUOTE] + rest;
      StringReads(s[2..], rest);
      PlainReads(s[1], more);
      PlainReads(s[0], [s[1]] + more);
      Regroup([s[0], s[1]], EscapeAll(s[2..]), [QUOTE], rest);
      assert [s[0], s[1]] + more == [s[0]] + ([s[1]] + more);
    } else {
      UnitHead(s);
      hide PairOpens;
      StringReads(s[1..], rest);
      EscapedReads(s[0], EscapeAll(s[1..]) + [QUOTE] + rest);
      Regroup(Escape(s[0]), EscapeAll(s[1..]), [QUOTE], rest);
    }
  }

  // ---- Values read back ----

  lemma {:induction false} NumberReads(text: Text, rest: Text)
    requires forall i :: 0 <= i < |text| ==> NumberUnit(text[i])
    requires rest != [] ==> !NumberUnit(rest[0])
    ensures NumberLength(text + rest) == |text|
  {
    if text == [] {
      assert text + rest == rest;
    } else {
      NumberReads(text[1..], rest);
      assert (text + rest)[1..] == text[1..] + rest;
    }
  }

  lemma FirstUnit(v: Value)
    requires Proper(v)
    ensures Canonicalize(v) != []
    ensures Canonicalize(v)[0] !in {COMMA, CLOSE_BRACKET, CLOSE_BRACE}
  {
    hide Quote, ItemsText, MembersText, Sorted;
    if v.Str? { QuoteOpens(v.s); }
  }

  lemma QuoteOpens(s: Text)
    ensures Quote(s) != [] && Quote(s)[0] == QUOTE
  {
  }

  lemma QuoteReads(s: Text, rest: Text)
    ensures ReadString((Quote(s) + rest)[1..]) == Some((s, rest))
  {
    hide ReadString;
    assert (Quote(s) + rest)[1..] == EscapeAll(s) + [QUOTE] + rest;
    StringReads(s, rest);
  }

  /** A number must not run on into the rest. */
  predicate Ends(rest: Text) {
    rest != [] ==> !NumberUnit(rest[0])
  }

  /** Whatever follows, reading the printed value gives its normal form and stops right behind it. */
  lemma {:induction false} ValueReads(v: Value, rest: Text)
    requires Proper(v) && Ends(rest)
    ensures ReadValue(Canonicalize(v) + rest) == Some((Normalize(v), rest))
    decreases v, 2, 0
  {
    hide ReadValue, Sorted, ItemsText, MembersText, NormalItems, NormalMembers;
    match v {
      case Number(text) => NumberValueReads(text, rest);
      case Str(s) => StrValueReads(s, rest);
      case Arr(_) => ArrReads(v, rest);
      case Obj(_) => ObjReads(v, rest);
      case _ => WordReads(v, rest);
    }
  }

  lemma WordReads(v: Value, rest: Text)
    requires Proper(v) && !v.Number? && !v.Str? && !v.Arr? && !v.Obj?
    ensures ReadValue(Canonicalize(v) + rest) == Some((Normalize(v), rest))
  {
    var t := Canonicalize(v) + rest;
    assert t[..|Canonicalize(v)|] == Canonicalize(v) && t[|Canonicalize(v)|..] == rest;
  }

  lemma NumberValueReads(text: Text, rest: Text)
    requires Proper(Number(text)) && Ends(rest)
    ensures ReadValue(text + rest) == Some((JNumber(text), rest))
  {
    var t := text + rest;
    NumberReads(text, rest);
    assert t[0] == text[0] && NumberUnit(t[0]);
    hide NumberLength, StartsWith;
    assert t[..|text|] == text && t[|text|..] == rest;
  }

  lemma StrValueReads(s: Text, rest: Text)
    ensures ReadValue(Quote(s) + rest) == Some((JStr(s), rest))
  {
    QuoteOpens(s);
    QuoteReads(s, rest);
    assert (Quote(s) + rest)[0] == QUOTE;
    hide Quote, ReadString, StartsWith, ReadItems, ReadMembers;
  }

  lemma ItemReads(item: Value, rest: Text)
    requires item.Hole? || Proper(item)
    requires rest != [] && (rest[0] == COMMA || rest[0] == CLOSE_BRACKET)
    ensures ReadItem(ItemText(item) + rest) == Some((Normalize(item), rest))
    decreases item, 3, 0
  {
    if item.Hole? {
      assert ItemText(item) + rest == rest;
    } else {
      FirstUnit(item);
      ValueReads(item, rest);
      assert (Canonicalize(item) + rest)[0] == Canonicalize(item)[0];
      hide Canonicalize, ReadValue;
    }
  }

  lemma {:induction false} ItemsRead(items: seq<Value>, rest: Text)
    requires items != [] && forall i :: 0 <= i < |items| ==> items[i].Hole? || Proper(items[i])
    ensures ReadItems(ItemsText(items) + [CLOSE_BRACKET] + rest) == Some((NormalItems(items), rest))
    decreases items, 0, 0
  {
    hide ReadItem, ItemText, Normalize, Proper;
    var t := ItemsText(items) + [CLOSE_BRACKET] + rest;
    if |items| == 1 {
      var behind := [CLOSE_BRACKET] + rest;
      ItemReads(items[0], behind);
      assert t == ItemText(items[0]) + behind && behind[1..] == rest;
      assert NormalItems(items) == [Normalize(items[0])];
    } else {
      var more := ItemsText(items[1..]) + [CLOSE_BRACKET] + rest;
      var behind := [COMMA] + more;
      ItemReads(items[0], behind);
      ItemsRead(items[1..], rest);
      assert t == ItemText(items[0]) + behind && behind[1..] == more;
    }
  }

  /** One member, and the last or one more. */
  lemma MemberReads(key: Text, value: Text)
    requires ReadValue(value).Some? && ReadValue(value).value.1 != []
    ensures var (json, behind) := ReadValue(value).value;
            var r := ReadMembers(Quote(key) + ([COLON] + value));
            && (behind[0] == CLOSE_BRACE ==> r == Some((map[key := json], behind[1..])))
            && (behind[0] == COMMA && ReadMembers(behind[1..]).Some? ==>
                  var (members, rest) := ReadMembers(behind[1..]).value;
                  r == Some((members[key := json], rest)))
  {
    QuoteOpens(key);
    QuoteReads(key, [COLON] + value);
    assert ([COLON] + value)[1..] == value;
    assert (Quote(key) + ([COLON] + value))[0] == QUOTE;
    hide ReadString, Quote, ReadValue;
  }

  lemma RegroupMember(key: Text, value: Text, behind: Text)
    ensures key + [COLON] + value + behind == key + ([COLON] + (value + behind))
  {
  }

  lemma RegroupList(first: Text, more: Text, end: Text, rest: Text)
    ensures first + [COMMA] + more + end + rest == first + ([COMMA] + (more + end + rest))
    ensures ([COMMA] + (more + end + rest))[1..] == more + end + rest
  {
  }

  lemma RegroupLast(first: Text, end: Text, rest: Text)
    requires |end| == 1
    ensures first + end + rest == first + (end + rest) && (end + rest)[1..] == rest
  {
  }

  lemma {:induction false} MembersRead(members: seq<Entry>, whole: Value, rest: Text)
    requires members != [] && forall m :: m in members ==> m.value < whole && Proper(m.value) && !m.value.Undefined?
    ensures ReadMembers(MembersText(members, whole) + [CLOSE_BRACE] + rest) == Some((NormalMembers(members), rest))
    decreases whole, 0, |members|
  {
    hide ReadMembers, ReadString, Quote, ReadValue, Canonicalize, Normalize, Proper;
    var e := members[0];
    assert e in members;
    var first := Quote(e.key) + [COLON] + Canonicalize(e.value);
    if |members| == 1 {
      var behind := [CLOSE_BRACE] + rest;
      RegroupLast(first, [CLOSE_BRACE], rest);
      RegroupMember(Quote(e.key), Canonicalize(e.value), behind);
      ValueReads(e.value, behind);
      MemberReads(e.key, Canonicalize(e.value) + behind);
      assert NormalMembers(members) == map[e.key := Normalize(e.value)];
    } else {
      var more := MembersText(members[1..], whole);
      var behind := [COMMA] + (more + [CLOSE_BRACE] + rest);
      RegroupList(first, more, [CLOSE_BRACE], rest);
      RegroupMember(Quote(e.key), Canonicalize(e.value), behind);
      ValueReads(e.value, behind);
      MemberReads(e.key, Canonicalize(e.value) + behind);
      assert forall m :: m in members[1..] ==> m in members;
      MembersRead(members[1..], whole, rest);
    }
  }

  lemma ArrReads(v: Value, rest: Text)
    requires v.Arr? && Proper(v)
    ensures ReadValue(Canonicalize(v) + rest) == Some((Normalize(v), rest))
    decreases v, 0, 0
  {
    var t := Canonicalize(v) + rest;
    var inner := ItemsText(v.items) + [CLOSE_BRACKET] + rest;
    assert t == [OPEN_BRACKET] + inner && t[1..] == inner;
    if v.items == [] || v.items == [Hole] {
      assert ItemsText(v.items) == [];
      assert inner == [CLOSE_BRACKET] + rest && t[2..] == rest;
    } else {
      ItemsRead(v.items, rest);
      ItemsOpen(v.items);
      assert inner[0] == ItemsText(v.items)[0];
      hide ReadItems, ReadMembers, ItemsText, NormalItems, Proper;
    }
  }

  lemma ItemsOpen(items: seq<Value>)
    requires items != [] && items != [Hole] && forall i :: 0 <= i < |items| ==> items[i].Hole? || Proper(items[i])
    ensures ItemsText(items) != [] && ItemsText(items)[0] != CLOSE_BRACKET
  {
    hide Canonicalize, Proper;
    if !items[0].Hole? { FirstUnit(items[0]); }
  }

  lemma BraceReads(inner: Text)
    requires inner != []
    ensures var r := ReadValue([OPEN_BRACE] + inner);
            && (inner[0] == CLOSE_BRACE ==> r == Some((JObj(map[]), inner[1..])))
            && (inner[0] == QUOTE && ReadMembers(inner).Some? ==>
                  r == Some((JObj(ReadMembers(inner).value.0), ReadMembers(inner).value.1)))
  {
    var t := [OPEN_BRACE] + inner;
    assert t[1..] == inner && t[2..] == inner[1..];
    hide ReadMembers, ReadItems, ReadString, NumberLength, StartsWith;
  }

  lemma ObjReads(v: Value, rest: Text)
    requires v.Obj? && Proper(v)
    ensures ReadValue(Canonicalize(v) + rest) == Some((Normalize(v), rest))
    decreases v, 1, 0
  {
    var members := Sorted(v.entries);
    var inner := MembersText(members, v) + [CLOSE_BRACE] + rest;
    assert Canonicalize(v) + rest == [OPEN_BRACE] + inner;
    assert Normalize(v) == JObj(NormalMembers(v.entries));
    SortedAscends(v.entries);
    SameMembers(members, v.entries);
    assert forall m :: m in members ==> Proper(m.value) && m.value < v;
    if members == [] {
      assert inner == [CLOSE_BRACE] + rest && inner[1..] == rest;
    } else {
      MembersRead(members, v, rest);
      MembersOpen(members, v);
      assert inner[0] == MembersText(members, v)[0];
    }
    hide ReadValue, ReadMembers, MembersText, NormalMembers, Normalize, Canonicalize, Proper, Sorted;
    BraceReads(inner);
  }

  lemma MembersOpen(members: seq<Entry>, whole: Value)
    requires members != [] && forall m :: m in members ==> m.value < whole
    ensures MembersText(members, whole) != [] && MembersText(members, whole)[0] == QUOTE
  {
    QuoteOpens(members[0].key);
    hide Quote, Canonicalize;
  }

  // ---- Equal normal forms print equally ----

  lemma AscendingIsDistinct(entries: seq<Entry>)
    requires Ascending(entries)
    ensures DistinctKeys(entries)
  {
    hide Less;
    forall i, j | 0 <= i < j < |entries|
      ensures entries[i].key != entries[j].key
    {
      LessIsTotal(entries[i].key, entries[j].key);
    }
  }

  lemma LaterKeys(a: seq<Entry>)
    requires a != [] && Ascending(a)
    ensures forall l :: l in NormalMembers(a[1..]) ==> l != a[0].key && Less(a[0].key, l)
  {
    var rest := a[1..];
    AscendingIsDistinct(rest);
    hide NormalMembers, Normalize, Less;
    MembersAre(rest);
    forall l | l in NormalMembers(rest)
      ensures l != a[0].key && Less(a[0].key, l)
    {
      var e :| e in rest && !e.value.Undefined? && e.key == l;
      LessIsTotal(a[0].key, l);
    }
  }

  /** The first member has the least key of the map. */
  lemma LeastMember(a: seq<Entry>)
    requires a != [] && Ascending(a) && forall e :: e in a ==> !e.value.Undefined?
    ensures var (m, k) := (NormalMembers(a), a[0].key);
            && k in m && m[k] == Normalize(a[0].value) && NormalMembers(a[1..]) == m - {k}
            && forall l :: l in m ==> l == k || Less(k, l)
  {
    assert a[0] in a;
    FirstMember(a);
    hide NormalMembers, Normalize, Less, Ascending;
    LaterKeys(a);
    UpdateUndone(NormalMembers(a[1..]), a[0].key, Normalize(a[0].value));
  }

  lemma UpdateUndone(m: map<Text, Json>, k: Text, v: Json)
    requires k !in m
    ensures m[k := v] - {k} == m
  {
  }

  lemma FirstMember(a: seq<Entry>)
    requires a != [] && !a[0].value.Undefined?
    ensures NormalMembers(a) == NormalMembers(a[1..])[a[0].key := Normalize(a[0].value)]
  {
  }

  lemma {:induction false} SameMembersText(a: seq<Entry>, b: seq<Entry>, v: Value, w: Value)
    requires Ascending(a) && Ascending(b) && NormalMembers(a) == NormalMembers(b)
    requires forall e :: e in a ==> e.value < v && Proper(e.value) && !e.value.Undefined?
    requires forall e :: e in b ==> e.value < w && Proper(e.value) && !e.value.Undefined?
    ensures MembersText(a, v) == MembersText(b, w)
    decreases v, 0, |a|
  {
    hide Normalize, Proper, Less, Canonicalize, Quote;
    if a == [] {
      assert b == [] by { if b != [] { LeastMember(b); } }
    } else {
      LeastMember(a);
      assert b != [];
      LeastMember(b);
      LessIsTotal(a[0].key, b[0].key);
      SameText(a[0].value, b[0].value);
      assert forall e :: e in a[1..] ==> e in a;
      assert forall e :: e in b[1..] ==> e in b;
      SameMembersText(a[1..], b[1..], v, w);
      assert |a| == 1 <==> |b| == 1 by {
        if |a| == 1 && |b| > 1 { LeastMember(b[1..]); }
        if |b| == 1 && |a| > 1 { LeastMember(a[1..]); }
      }
      hide NormalMembers, Ascending;
    }
  }

  lemma {:induction false} SameItemsText(a: seq<Value>, b: seq<Value>)
    requires forall i :: 0 <= i < |a| ==> a[i].Hole? || Proper(a[i])
    requires forall i :: 0 <= i < |b| ==> b[i].Hole? || Proper(b[i])
    requires NormalItems(a) == NormalItems(b)
    ensures |a| == |b| && ItemsText(a) == ItemsText(b)
    decreases a, 0, 0
  {
    if a != [] && b != [] {
      assert NormalItems(a)[0] == NormalItems(b)[0] && NormalItems(a)[1..] == NormalItems(b)[1..];
      hide Proper, Canonicalize;
      if !a[0].Hole? && !b[0].Hole? { SameText(a[0], b[0]); }
      SameItemsText(a[1..], b[1..]);
    }
  }

  lemma {:induction false} SameText(v: Value, w: Value)
    requires Proper(v) && Proper(w) && Normalize(v) == Normalize(w)
    ensures Canonicalize(v) == Canonicalize(w)
    decreases v, 1, 0
  {
    if v.Arr? && w.Arr? {
      assert NormalItems([Hole]) == [JHole];
      assert ItemsText([Hole]) == [] == ItemsText([]);
      if v.items != [Hole] && w.items != [Hole] { SameItemsText(v.items, w.items); }
      hide NormalItems, Proper;
    } else if v.Obj? && w.Obj? {
      var (a, b) := (Sorted(v.entries), Sorted(w.entries));
      SortedAscends(v.entries);
      SortedAscends(w.entries);
      SameMembers(a, v.entries);
      SameMembers(b, w.entries);
      assert forall e :: e in a ==> e.value < v && Proper(e.value);
      assert forall e :: e in b ==> e.value < w && Proper(e.value);
      SameMembersText(a, b, v, w);
    } else {
      hide NormalItems, NormalMembers;
    }
  }

  // ---- What callers may rely on ----

  /** Canonical text is a complete invariant: equal for exactly the values with one normal form. */
  lemma CompleteInvariant(v: Value, w: Value)
    requires Proper(v) && Proper(w)
    ensures Canonicalize(v) == Canonicalize(w) <==> Normalize(v) == Normalize(w)
  {
    if Normalize(v) == Normalize(w) { SameText(v, w); }
    hide Canonicalize, Normalize, ReadValue, Proper;
    ValueReads(v, []);
    ValueReads(w, []);
  }

  /** No canonical text is a proper prefix of another one's, numbers running on aside. */
  lemma ParsesUniquely(v: Value, w: Value, behindV: Text, behindW: Text)
    requires Proper(v) && Proper(w) && Ends(behindV) && Ends(behindW)
    requires Canonicalize(v) + behindV == Canonicalize(w) + behindW
    ensures Normalize(v) == Normalize(w) && behindV == behindW
  {
    hide Canonicalize, Normalize, ReadValue, Proper;
    ValueReads(v, behindV);
    ValueReads(w, behindW);
  }

  /** The order in which keys were inserted never matters. */
  lemma KeyOrderIsForgotten(a: seq<Entry>, b: seq<Entry>)
    requires Proper(Obj(a)) && Proper(Obj(b)) && multiset(a) == multiset(b)
    ensures Canonicalize(Obj(a)) == Canonicalize(Obj(b))
  {
    forall e: Entry
      ensures e in a <==> e in b
    {
      assert e in multiset(a) <==> e in multiset(b);
    }
    SameMembers(a, b);
    SameText(Obj(a), Obj(b));
  }

  /** A sparse array of one missing element prints like an empty one, a longer one like no other array. */
  lemma SparseArrays(items: seq<Value>)
    requires Proper(Arr(items))
    ensures Canonicalize(Arr([Hole])) == Canonicalize(Arr([])) && Canonicalize(Arr([Hole])) != Canonicalize(Arr([Undefined]))
    ensures Canonicalize(Arr(items)) == Canonicalize(Arr([])) <==> items == [] || items == [Hole]
  {
    assert ItemsText([Hole]) == [] == ItemsText([]);
    CompleteInvariant(Arr(items), Arr([]));
    CompleteInvariant(Arr([Hole]), Arr([Undefined]));
    hide Canonicalize;
    assert items != [] ==> NormalItems(items) != [];
  }

  // ---- The hash input of a change ----

  datatype Change = Change(entityType: Text, entityId: Text, schemaVersion: int, baseRevision: Option<int>,
                           operation: Text, payload: Value)

  function NaturalText(n: nat): Text {
    if n < 10 then [48 + n] else NaturalText(n / 10) + [48 + n % 10]
  }

  /** String() of an integer below 1e21 in magnitude. */
  function DecimalText(n: int): Text {
    if n < 0 then [45] + NaturalText(-n) else NaturalText(n)
  }

  function NaturalValue(t: Text): int {
    if t == [] then 0 else 10 * NaturalValue(t[..|t| - 1]) + t[|t| - 1] - 48
  }

  lemma {:induction false} NaturalReads(n: nat)
    ensures NaturalValue(NaturalText(n)) == n
    ensures NaturalText(n) != [] && forall i :: 0 <= i < |NaturalText(n)| ==> 48 <= NaturalText(n)[i] <= 57
  {
    var t := NaturalText(n);
    if n >= 10 {
      NaturalReads(n / 10);
      assert t[..|t| - 1] == NaturalText(n / 10);
    } else {
      assert t[..|t| - 1] == [];
    }
  }

  function DecimalValue(t: Text): int {
    if t != [] && t[0] == 45 then -NaturalValue(t[1..]) else NaturalValue(t)
  }

  lemma DecimalReads(n: int)
    ensures DecimalValue(DecimalText(n)) == n && Proper(Number(DecimalText(n)))
  {
    NaturalReads(if n < 0 then -n else n);
    if n < 0 { assert DecimalText(n)[1..] == NaturalText(-n); }
    hide NaturalText, NaturalValue;
  }

  function Ascii(s: string): Text {
    seq(|s|, i requires 0 <= i < |s| => var c := s[i] as int; if c < 128 then c else 0)
  }

  /** payload ?? null */
  function PayloadOf(c: Change): Value {
    if c.payload.Undefined? then Null else c.payload
  }

  function RevisionValue(revision: Option<int>): Value {
    if revision.Some? then Number(DecimalText(revision.value)) else Null
  }

  function HashRecord(c: Change): Value {
    Obj([Entry(Ascii("baseRevision"), RevisionValue(c.baseRevision)),
         Entry(Ascii("entityId"), Str(c.entityId)),
         Entry(Ascii("entityType"), Str(c.entityType)),
         Entry(Ascii("operation"), Str(c.operation)),
         Entry(Ascii("payload"), PayloadOf(c)),
         Entry(Ascii("schemaVersion"), Number(DecimalText(c.schemaVersion)))])
  }

  function HashInput(c: Change): Text {
    Canonicalize(HashRecord(c))
  }

  /** Equal records have equal fields. */
  lemma FieldAgrees(es: seq<Entry>, fs: seq<Entry>, i: nat)
    requires DistinctKeys(es) && DistinctKeys(fs) && NormalMembers(es) == NormalMembers(fs)
    requires i < |es| && i < |fs| && es[i].key == fs[i].key && !es[i].value.Undefined? && !fs[i].value.Undefined?
    ensures Normalize(es[i].value) == Normalize(fs[i].value)
  {
    hide Normalize, NormalMembers;
    MembersAre(es);
    MembersAre(fs);
    assert es[i] in es && fs[i] in fs;
  }

  lemma {:induction false} SameFields(es: seq<Entry>, fs: seq<Entry>)
    requires |es| == |fs|
    requires forall i :: 0 <= i < |es| ==> es[i].key == fs[i].key && !es[i].value.Undefined? && !fs[i].value.Undefined?
    requires forall i :: 0 <= i < |es| ==> Normalize(es[i].value) == Normalize(fs[i].value)
    ensures NormalMembers(es) == NormalMembers(fs)
  {
    hide Normalize;
    if es != [] { SameFields(es[1..], fs[1..]); }
  }

  lemma HashRecordOk(c: Change)
    requires Proper(c.payload)
    ensures Proper(HashRecord(c))
  {
    DecimalReads(c.schemaVersion);
    if c.baseRevision.Some? { DecimalReads(c.baseRevision.value); }
    hide DecimalText;
  }

  lemma NumberField(n: int, m: int)
    ensures Normalize(Number(DecimalText(n))) == Normalize(Number(DecimalText(m))) <==> n == m
  {
    DecimalReads(n);
    DecimalReads(m);
    hide DecimalText, DecimalValue;
  }

  lemma RevisionField(n: Option<int>, m: Option<int>)
    ensures Normalize(RevisionValue(n)) == Normalize(RevisionValue(m)) <==> n == m
  {
    if n.Some? && m.Some? { NumberField(n.value, m.value); }
    hide DecimalText;
  }

  predicate SameFieldValues(es: seq<Entry>, fs: seq<Entry>) {
    |es| == |fs| && forall i :: 0 <= i < |es| ==> Normalize(es[i].value) == Normalize(fs[i].value)
  }

  predicate SameChange(c: Change, d: Change) {
    && c.operation == d.operation && c.entityType == d.entityType && c.entityId == d.entityId
    && c.baseRevision == d.baseRevision && c.schemaVersion == d.schemaVersion
    && Normalize(PayloadOf(c)) == Normalize(PayloadOf(d))
  }

  lemma FieldsMean(c: Change, d: Change)
    ensures SameFieldValues(HashRecord(c).entries, HashRecord(d).entries) <==> SameChange(c, d)
  {
    RevisionField(c.baseRevision, d.baseRevision);
    NumberField(c.schemaVersion, d.schemaVersion);
    StringField(c.entityId, d.entityId);
    StringField(c.entityType, d.entityType);
    StringField(c.operation, d.operation);
    hide Normalize, DecimalText, RevisionValue, Ascii, PayloadOf;
    var (es, fs) := (HashRecord(c).entries, HashRecord(d).entries);
    if SameFieldValues(es, fs) {
      assert Normalize(es[0].value) == Normalize(fs[0].value) && Normalize(es[1].value) == Normalize(fs[1].value);
      assert Normalize(es[2].value) == Normalize(fs[2].value) && Normalize(es[3].value) == Normalize(fs[3].value);
      assert Normalize(es[4].value) == Normalize(fs[4].value) && Normalize(es[5].value) == Normalize(fs[5].value);
    }
  }

  lemma StringField(s: Text, t: Text)
    ensures Normalize(Str(s)) == Normalize(Str(t)) <==> s == t
  {
  }

  lemma RecordsAgree(es: seq<Entry>, fs: seq<Entry>)
    requires DistinctKeys(es) && DistinctKeys(fs) && |es| == |fs|
    requires forall i :: 0 <= i < |es| ==> es[i].key == fs[i].key && !es[i].value.Undefined? && !fs[i].value.Undefined?
    ensures NormalMembers(es) == NormalMembers(fs) <==> SameFieldValues(es, fs)
  {
    hide NormalMembers, Normalize, DistinctKeys;
    if NormalMembers(es) == NormalMembers(fs) {
      forall i | 0 <= i < |es|
        ensures Normalize(es[i].value) == Normalize(fs[i].value)
      {
        FieldAgrees(es, fs, i);
      }
    } else if SameFieldValues(es, fs) {
      SameFields(es, fs);
    }
  }

  lemma RecordShape(c: Change, d: Change)
    requires Proper(c.payload)
    ensures HashRecord(c).Obj? && |HashRecord(c).entries| == 6 && DistinctKeys(HashRecord(c).entries)
    ensures forall i :: 0 <= i < 6 ==> !HashRecord(c).entries[i].value.Undefined?
    ensures forall i :: 0 <= i < 6 ==> HashRecord(c).entries[i].key == HashRecord(d).entries[i].key
    ensures Normalize(HashRecord(c)) == JObj(NormalMembers(HashRecord(c).entries))
  {
    HashRecordOk(c);
    hide DecimalText, NormalMembers, Ascii;
  }

  /** Two changes share a hash input exactly when all six fields agree, payloads up to normalisation. */
  lemma HashInputIsComplete(c: Change, d: Change)
    requires Proper(c.payload) && Proper(d.payload)
    ensures HashInput(c) == HashInput(d) <==>
              && c.operation == d.operation && c.entityType == d.entityType && c.entityId == d.entityId
              && c.baseRevision == d.baseRevision && c.schemaVersion == d.schemaVersion
              && Normalize(PayloadOf(c)) == Normalize(PayloadOf(d))
  {
    hide HashRecord, Canonicalize, NormalMembers, Normalize, Proper, SameFieldValues, PayloadOf, DistinctKeys;
    HashRecordOk(c);
    HashRecordOk(d);
    CompleteInvariant(HashRecord(c), HashRecord(d));
    FieldsMean(c, d);
    RecordShape(c, d);
    RecordShape(d, c);
    RecordsAgree(HashRecord(c).entries, HashRecord(d).entries);
  }
}
