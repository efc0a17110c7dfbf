/**
  The canonical JSON signature of frontend/src/api.ts (stableJsonSignature).

  A signature decides whether two request bodies are the same request. Text is modelled as
  JavaScript sees it, in UTF-16 code units; strings are escaped as JSON.stringify does, within
  section 7 of RFC 8259. The main result: two accepted values have equal signatures exactly
  when they are the same JSON value, key order aside.
*/
module JsonSignature {
  type Unit = n: int | 0 <= n < 0x1_0000

  type Text = seq<Unit>

  datatype Option<T> = None | Some(value: T)

  datatype Field = Field(key: Text, value: Value)

  /** A finite number is represented by the text JSON.stringify gives it. */
  datatype Value =
    | Null
    | Bool(b: bool)
    | Number(digits: Text)
    | String(s: Text)
    | Array(items: seq<Value>)
    | Object(fields: seq<Field>)
    | NotJson  // undefined, NaN and infinities, functions, symbols, accessors, class instances

  const QUOTE: Unit := 34
  const COMMA: Unit := 44
  const COLON: Unit := 58
  const LBRACKET: Unit := 91
  const BACKSLASH: Unit := 92
  const RBRACKET: Unit := 93
  const LETTER_U: Unit := 117
  const LBRACE: Unit := 123
  const RBRACE: Unit := 125

  const NULL_TEXT: Text := [110, 117, 108, 108]
  const TRUE_TEXT: Text := [116, 114, 117, 101]
  const FALSE_TEXT: Text := [102, 97, 108, 115, 101]

  // Strings.

  predicate High(u: Unit) { 0xD800 <= u < 0xDC00 }

  predicate Low(u: Unit) { 0xDC00 <= u < 0xE000 }

  function HexDigit(n: int): (r: Unit)
    requires 0 <= n < 16
  {
    if n < 10 then 48 + n else 87 + n
  }

  function Hex4(u: Unit): (r: Text)
    ensures |r| == 4
  {
    var q := u / 16;
    var p := q / 16;
    [HexDigit(p / 16), HexDigit(p % 16), HexDigit(q % 16), HexDigit(u % 16)]
  }

  /** The letter behind the backslash for the two-character escapes, 0 for all other units. */
  function ShortEscape(u: Unit): (r: Unit)
  {
    if u == QUOTE || u == BACKSLASH then u
    else if u == 8 then 98
    else if u == 9 then 116
    else if u == 10 then 110
    else if u == 12 then 102
    else if u == 13 then 114
    else 0
  }

  function Escape(u: Unit): (r: Text)
  {
    if ShortEscape(u) != 0 then [BACKSLASH, ShortEscape(u)]
    else if u < 32 || High(u) || Low(u) then [BACKSLASH, LETTER_U] + Hex4(u)
    else [u]
  }

  /** The units taken off the front together: a surrogate pair, or one unit. */
  function Front(s: Text): (r: Text)
    requires s != []
    ensures 1 <= |r| <= |s| && r == s[..|r|]
  {
    if High(s[0]) && |s| > 1 && Low(s[1]) then s[..2] else s[..1]
  }

  function EscapeFront(front: Text): (r: Text)
    requires front != []
  {
    if |front| > 1 then front else Escape(front[0])
  }

  /** The text of a string behind its opening quote. */
  function Body(s: Text): (r: Text)
  {
    if s == [] then [QUOTE] else EscapeFront(Front(s)) + Body(s[|Front(s)|..])
  }

  function Quoted(s: Text): (r: Text)
  {
    [QUOTE] + Body(s)
  }

  /** What a lower-case hexadecimal digit stands for. */
  function DigitValue(h: Unit): (r: int) {
    if 48 <= h <= 57 then h - 48 else if 97 <= h <= 102 then h - 87 else -1
  }

  /** The seven short escapes; the numeric one for the other controls and for lone surrogates; nothing else is escaped. */
  lemma EscapesByUnit(u: Unit)
    ensures u == 8 ==> Escape(u) == [92, 98]
    ensures u == 9 ==> Escape(u) == [92, 116]
    ensures u == 10 ==> Escape(u) == [92, 110]
    ensures u == 12 ==> Escape(u) == [92, 102]
    ensures u == 13 ==> Escape(u) == [92, 114]
    ensures u == 34 || u == 92 ==> Escape(u) == [92, u]
    ensures u !in {8, 9, 10, 12, 13} && (u < 32 || 0xD800 <= u < 0xE000) ==>
      var e := Escape(u);
      && |e| == 6 && e[..2] == [92, 117] && (forall k :: 2 <= k < 6 ==> DigitValue(e[k]) >= 0)
      && u == 4096 * DigitValue(e[2]) + 256 * DigitValue(e[3]) + 16 * DigitValue(e[4]) + DigitValue(e[5])
    ensures u >= 32 && u !in {34, 92} && !(0xD800 <= u < 0xE000) ==> Escape(u) == [u]
  {
  }

  /** A surrogate pair is written as it is; a unit that begins none is written by itself. */
  lemma BodyByFront(s: Text)
    requires s != []
    ensures |s| > 1 && 0xD800 <= s[0] < 0xDC00 <= s[1] < 0xE000 ==> Body(s) == s[..2] + Body(s[2..])
    ensures !(|s| > 1 && 0xD800 <= s[0] < 0xDC00 <= s[1] < 0xE000) ==> Body(s) == Escape(s[0]) + Body(s[1..])
  {
  }

  lemma HexDigitInjective(m: int, n: int)
    requires 0 <= m < 16 && 0 <= n < 16 && HexDigit(m) == HexDigit(n)
    ensures m == n
  {
  }

  lemma DivModInjective(m: nat, n: nat)
    requires m / 16 == n / 16 && m % 16 == n % 16
    ensures m == n
  {
  }

  lemma Hex4Injective(u: Unit, w: Unit)
    requires Hex4(u) == Hex4(w)
    ensures u == w
  {
    var p, q := Hex4(u), Hex4(w);
    assert p[0] == q[0] && p[1] == q[1] && p[2] == q[2] && p[3] == q[3];
    HexDigitInjective(u / 16 / 16 / 16, w / 16 / 16 / 16);
    HexDigitInjective(u / 16 / 16 % 16, w / 16 / 16 % 16);
    HexDigitInjective(u / 16 % 16, w / 16 % 16);
    HexDigitInjective(u % 16, w % 16);
    DivModInjective(u / 16 / 16, w / 16 / 16);
    DivModInjective(u / 16, w / 16);
    DivModInjective(u, w);
  }

  lemma EscapeUnique(u: Unit, w: Unit, x: Text, y: Text)
    requires Escape(u) + x == Escape(w) + y
    ensures u == w && x == y
  {
    var s, t := Escape(u) + x, Escape(w) + y;
    assert s[0] == t[0];
    if s[0] == BACKSLASH {
      assert s[1] == t[1];
      if s[1] == LETTER_U {
        assert s[2..6] == Hex4(u) && t[2..6] == Hex4(w);
        Hex4Injective(u, w);
      }
    }
    assert u == w;
    assert x == s[|Escape(u)|..] && y == t[|Escape(w)|..];
  }

  lemma FrontUnique(s: Text, t: Text, x: Text, y: Text)
    requires s != [] && t != []
    requires EscapeFront(Front(s)) + x == EscapeFront(Front(t)) + y
    ensures Front(s) == Front(t) && x == y
  {
    var p, q := Front(s), Front(t);
    assert (EscapeFront(p) + x)[0] == (EscapeFront(q) + y)[0];
    if |p| == 1 && |q| == 1 {
      EscapeUnique(s[0], t[0], x, y);
    } else {
      assert |p| == 2 && |q| == 2;
      var whole := p + x;
      assert whole == q + y && whole[..2] == p && (q + y)[..2] == q;
      assert x == whole[2..] && y == (q + y)[2..];
    }
  }

  lemma CancelPrefix(p: Text, x: Text, y: Text)
    requires p + x == p + y
    ensures x == y
  {
    assert x == (p + x)[|p|..] && y == (p + y)[|p|..];
  }

  lemma CancelHead(p: Text, s: Text, t: Text, x: Text, y: Text)
    requires p + s + x == p + t + y
    ensures s + x == t + y
  {
    assert p + s + x == p + (s + x) && p + t + y == p + (t + y);
    CancelPrefix(p, s + x, t + y);
  }

  lemma BodyFirstUnit(s: Text, x: Text)
    ensures (Body(s) + x)[0] == QUOTE <==> s == []
  {
  }

  lemma BodyUnfolds(s: Text, x: Text)
    requires s != []
    ensures Body(s) + x == EscapeFront(Front(s)) + (Body(s[|Front(s)|..]) + x)
    ensures s == Front(s) + s[|Front(s)|..]
  {
  }

  /** An escaped string ends where its closing quote is, and says what it was. */
  lemma {:induction false} BodyUnique(s: Text, t: Text, x: Text, y: Text)
    requires Body(s) + x == Body(t) + y
    ensures s == t && x == y
    decreases |s|
  {
    BodyFirstUnit(s, x);
    BodyFirstUnit(t, y);
    if s == [] {
      CancelPrefix([QUOTE], x, y);
    } else {
      var p, q := Front(s), Front(t);
      BodyUnfolds(s, x);
      BodyUnfolds(t, y);
      FrontUnique(s, t, Body(s[|p|..]) + x, Body(t[|q|..]) + y);
      BodyUnique(s[|p|..], t[|q|..], x, y);
    }
  }

  lemma QuotedUnique(s: Text, t: Text, x: Text, y: Text)
    requires Quoted(s) + x == Quoted(t) + y
    ensures s == t && x == y
  {
    CancelHead([QUOTE], Body(s), Body(t), x, y);
    BodyUnique(s, t, x, y);
  }

  // Key order.

  /** `left < right` on JavaScript strings. */
  predicate Less(a: Text, b: Text) {
    b != [] && (a == [] || a[0] < b[0] || (a[0] == b[0] && Less(a[1..], b[1..])))
  }

  lemma {:induction false} LessLaws(a: Text, b: Text, c: Text)
    ensures !(Less(a, b) && Less(b, a))
    ensures a != b ==> Less(a, b) || Less(b, a)
    ensures Less(a, b) && Less(b, c) ==> Less(a, c)
  {
    if a != [] && b != [] {
      LessLaws(a[1..], b[1..], if c == [] then [] else c[1..]);
      assert a == [a[0]] + a[1..] && b == [b[0]] + b[1..];
    }
  }

  /** One key with the signature of its value. */
  datatype Entry = Entry(key: Text, text: Text)

  ghost predicate Ascending(s: seq<Entry>) {
    forall i, j :: 0 <= i < j < |s| ==> Less(s[i].key, s[j].key)
  }

  function Insert(e: Entry, s: seq<Entry>): (r: seq<Entry>)
    ensures forall x :: x in r <==> x == e || x in s
  {
    if s == [] then [e] else if Less(e.key, s[0].key) then [e] + s else [s[0]] + Insert(e, s[1..])
  }

  function Sort(s: seq<Entry>): (r: seq<Entry>)
    ensures forall x :: x in r <==> x in s
  {
    if s == [] then [] else Insert(s[0], Sort(s[1..]))
  }

  lemma {:induction false} InsertAscends(e: Entry, s: seq<Entry>)
    requires Ascending(s) && forall x :: x in s ==> x.key != e.key
    ensures Ascending(Insert(e, s))
  {
    if s != [] {
      LessLaws(e.key, s[0].key, []);
      if Less(e.key, s[0].key) {
        forall j | 0 <= j < |s| ensures Less(e.key, s[j].key) {
          LessLaws(e.key, s[0].key, s[j].key);
        }
      } else {
        InsertAscends(e, s[1..]);
        var rest := Insert(e, s[1..]);
        forall j | 0 <= j < |rest| ensures Less(s[0].key, rest[j].key) {
          assert rest[j] in rest;
        }
      }
    }
  }

  ghost predicate DistinctKeys(s: seq<Entry>) {
    forall i, j :: 0 <= i < j < |s| ==> s[i].key != s[j].key
  }

  lemma {:induction false} SortAscends(s: seq<Entry>)
    requires DistinctKeys(s)
    ensures Ascending(Sort(s))
  {
    if s != [] {
      SortAscends(s[1..]);
      InsertAscends(s[0], Sort(s[1..]));
    }
  }

  /** Ascending listings of the same entries are the same listing. */
  lemma {:induction false} AscendingIsUnique(s: seq<Entry>, t: seq<Entry>)
    requires Ascending(s) && Ascending(t) && forall x :: x in s <==> x in t
    ensures s == t
  {
    assert t != [] ==> t[0] in s;
    if s != [] {
      assert s[0] in t && t != [];
      assert t[0] in s;
      LessLaws(s[0].key, t[0].key, []);
      assert s[0] == t[0] by {
        var i :| 0 <= i < |t| && t[i] == s[0];
        var j :| 0 <= j < |s| && s[j] == t[0];
      }
      forall x ensures x in s[1..] <==> x in t[1..] {
        TailOfAscending(s, x);
        TailOfAscending(t, x);
      }
      AscendingIsUnique(s[1..], t[1..]);
    }
  }

  lemma TailOfAscending(s: seq<Entry>, x: Entry)
    requires Ascending(s) && s != []
    ensures x in s[1..] <==> x in s && x != s[0]
  {
    if s[0] in s[1..] {
      var i :| 1 <= i < |s| && s[i] == s[0];
      LessLaws(s[0].key, s[i].key, []);
    }
  }

  // Signatures.

  /** Texts separated by commas. */
  function Commas(texts: seq<Text>): (r: Text)
  {
    if texts == [] then [] else if |texts| == 1 then texts[0] else texts[0] + [COMMA] + Commas(texts[1..])
  }

  function EntryText(e: Entry): (r: Text)
  {
    Quoted(e.key) + [COLON] + e.text
  }

  function EntryTexts(s: seq<Entry>): (r: seq<Text>)
    ensures |r| == |s| && forall i :: 0 <= i < |s| ==> r[i] == EntryText(s[i])
  {
    seq(|s|, i requires 0 <= i < |s| => EntryText(s[i]))
  }

  function SizeOfItems(items: seq<Value>): (r: nat)
    ensures forall i :: 0 <= i < |items| ==> Size(items[i]) <= r
  {
    if items == [] then 0 else Size(items[0]) + SizeOfItems(items[1..])
  }

  function SizeOfFields(fields: seq<Field>): (r: nat)
    ensures forall i :: 0 <= i < |fields| ==> Size(fields[i].value) <= r
  {
    if fields == [] then 0 else Size(fields[0].value) + SizeOfFields(fields[1..])
  }

  function Size(v: Value): (r: nat)
    ensures r > 0
  {
    match v
    case Array(items) => 1 + SizeOfItems(items)
    case Object(fields) => 1 + SizeOfFields(fields)
    case _ => 1
  }

  function Signature(v: Value): (r: Option<Text>)
  {
    match v
    case Null => Some(NULL_TEXT)
    case Bool(b) => Some(if b then TRUE_TEXT else FALSE_TEXT)
    case Number(digits) => Some(digits)
    case String(s) => Some(Quoted(s))
    case Array(items) =>
      var texts := ItemSignatures(items);
      if texts.None? then None else Some([LBRACKET] + Commas(texts.value) + [RBRACKET])
    case Object(fields) =>
      var entries := FieldSignatures(fields);
      if entries.None? then None else Some([LBRACE] + Commas(EntryTexts(Sort(entries.value))) + [RBRACE])
    case NotJson => None
  }

  /** The signatures of all items, or nothing when one of them is rejected. */
  function ItemSignatures(items: seq<Value>): (r: Option<seq<Text>>)
    ensures r.Some? ==> |r.value| == |items|
    ensures r.Some? ==> forall i :: 0 <= i < |items| ==> Signature(items[i]) == Some(r.value[i])
  {
    if items == [] then Some([])
    else
      var first, rest := Signature(items[0]), ItemSignatures(items[1..]);
      if first.None? || rest.None? then None else Some([first.value] + rest.value)
  }

  function FieldSignatures(fields: seq<Field>): (r: Option<seq<Entry>>)
    ensures r.Some? ==> |r.value| == |fields|
    ensures r.Some? ==> forall i :: 0 <= i < |fields| ==>
              r.value[i].key == fields[i].key && Signature(fields[i].value) == Some(r.value[i].text)
  {
    if fields == [] then Some([])
    else
      var first, rest := Signature(fields[0].value), FieldSignatures(fields[1..]);
      if first.None? || rest.None? then None else Some([Entry(fields[0].key, first.value)] + rest.value)
  }

  predicate NumberUnit(u: Unit) {
    48 <= u <= 57 || u == 43 || u == 45 || u == 46 || u == 101
  }

  /** What JSON.stringify writes for a finite number. */
  predicate NumberText(t: Text) {
    t != [] && (t[0] == 45 || 48 <= t[0] <= 57) && forall i :: 0 <= i < |t| ==> NumberUnit(t[i])
  }

  /** A value that can exist: numbers carry number text and objects have no key twice. */
  ghost predicate WellFormed(v: Value)
    decreases v
  {
    match v
    case Number(digits) => NumberText(digits)
    case Array(items) => forall i :: 0 <= i < |items| ==> WellFormed(items[i])
    case Object(fields) =>
      && (forall i :: 0 <= i < |fields| ==> WellFormed(fields[i].value))
      && (forall i, j :: 0 <= i < j < |fields| ==> fields[i].key != fields[j].key)
    case _ => true
  }

  /** Where an object lists a key; the number of its fields if it does not. */
  function IndexOf(fields: seq<Field>, key: Text): (r: nat)
    ensures r <= |fields| && (r < |fields| ==> fields[r].key == key)
    ensures r == |fields| ==> forall i :: 0 <= i < |fields| ==> fields[i].key != key
  {
    if fields == [] then 0 else if fields[0].key == key then 0 else 1 + IndexOf(fields[1..], key)
  }

  /** The same JSON value; the order in which an object lists its keys is immaterial. */
  ghost predicate Same(a: Value, b: Value)
    decreases a
  {
    match (a, b)
    case (Array(s), Array(t)) => |s| == |t| && forall i :: 0 <= i < |s| ==> Same(s[i], t[i])
    case (Object(s), Object(t)) =>
      && (forall i :: 0 <= i < |s| ==>
            IndexOf(t, s[i].key) < |t| && Same(s[i].value, t[IndexOf(t, s[i].key)].value))
      && (forall j :: 0 <= j < |t| ==> IndexOf(s, t[j].key) < |s|)
    case _ => a == b
  }

  /** What may follow a value inside a signature. */
  predicate Follows(x: Text) {
    x == [] || x[0] == COMMA || x[0] == RBRACKET || x[0] == RBRACE
  }

  lemma NumberUnique(s: Text, t: Text, x: Text, y: Text)
    requires NumberText(s) && NumberText(t) && Follows(x) && Follows(y) && s + x == t + y
    ensures s == t && x == y
  {
    var whole := s + x;
    assert s == whole[..|s|] && t == (t + y)[..|t|];
    assert x == whole[|s|..] && y == (t + y)[|t|..];
  }

  /** The first unit tells what kind of value a signature stands for. */
  function Kind(u: Unit): (r: int)
  {
    if u == 110 then 0 else if u == 116 then 1 else if u == 102 then 2
    else if u == QUOTE then 3 else if u == LBRACKET then 4 else if u == LBRACE then 5
    else if NumberUnit(u) then 6 else 7
  }

  function KindOf(v: Value): (r: int)
  {
    match v
    case Null => 0
    case Bool(b) => if b then 1 else 2
    case String(_) => 3
    case Array(_) => 4
    case Object(_) => 5
    case Number(_) => 6
    case NotJson => 7
  }

  lemma FirstUnit(v: Value)
    requires WellFormed(v) && Signature(v).Some?
    ensures var t := Signature(v).value; t != [] && Kind(t[0]) == KindOf(v) && KindOf(v) < 7
  {
  }

  // Signatures are prefix-free: where one ends can be told from the text.

  /** Each text starts something, so it can be told from a closing bracket or a comma. */
  ghost predicate Opening(texts: seq<Text>) {
    forall i :: 0 <= i < |texts| ==> texts[i] != [] && Kind(texts[i][0]) < 7
  }

  ghost predicate Apart(s: Text, t: Text) {
    forall x, y :: Follows(x) && Follows(y) && s + x == t + y ==> s == t && x == y
  }

  ghost predicate AllApart(ss: seq<Text>, ts: seq<Text>) {
    forall i, j :: 0 <= i < |ss| && 0 <= j < |ts| ==> Apart(ss[i], ts[j])
  }

  /** What stands behind the first text of a list. */
  function Remainder(texts: seq<Text>, close: Unit, x: Text): (r: Text)
    requires texts != []
  {
    if |texts| == 1 then [close] + x else [COMMA] + (Commas(texts[1..]) + [close] + x)
  }

  lemma CommasUnfold(texts: seq<Text>, close: Unit, x: Text)
    requires texts != []
    ensures Commas(texts) + [close] + x == texts[0] + Remainder(texts, close, x)
  {
  }

  lemma ListStart(texts: seq<Text>, close: Unit, x: Text)
    requires Opening(texts) && (close == RBRACKET || close == RBRACE)
    ensures (Commas(texts) + [close] + x)[0] == close <==> texts == []
  {
    if texts != [] {
      CommasUnfold(texts, close, x);
    }
  }

  lemma {:induction false} ListUnique(ss: seq<Text>, ts: seq<Text>, close: Unit, x: Text, y: Text)
    requires close == RBRACKET || close == RBRACE
    requires Opening(ss) && Opening(ts) && AllApart(ss, ts)
    requires Commas(ss) + [close] + x == Commas(ts) + [close] + y
    ensures ss == ts && x == y
  {
    ListStart(ss, close, x);
    ListStart(ts, close, y);
    if ss == [] {
      assert Commas(ss) + [close] + x == [close] + x && Commas(ts) + [close] + y == [close] + y;
      CancelPrefix([close], x, y);
    } else {
      var p, q := Remainder(ss, close, x), Remainder(ts, close, y);
      CommasUnfold(ss, close, x);
      CommasUnfold(ts, close, y);
      assert Apart(ss[0], ts[0]);
      assert p == q && p[0] == q[0];
      if |ss| == 1 {
        CancelPrefix([close], x, y);
      } else {
        CancelPrefix([COMMA], Commas(ss[1..]) + [close] + x, Commas(ts[1..]) + [close] + y);
        ListUnique(ss[1..], ts[1..], close, x, y);
      }
      assert ss == [ss[0]] + ss[1..] && ts == [ts[0]] + ts[1..];
    }
  }

  lemma EntryUnfolds(e: Entry, x: Text)
    ensures EntryText(e) + x == [QUOTE] + (Body(e.key) + ([COLON] + (e.text + x)))
  {
  }

  lemma EntryUnique(d: Entry, e: Entry, x: Text, y: Text)
    requires Apart(d.text, e.text) && Follows(x) && Follows(y)
    requires EntryText(d) + x == EntryText(e) + y
    ensures d == e && x == y
  {
    var p, q := [COLON] + (d.text + x), [COLON] + (e.text + y);
    EntryUnfolds(d, x);
    EntryUnfolds(e, y);
    CancelPrefix([QUOTE], Body(d.key) + p, Body(e.key) + q);
    BodyUnique(d.key, e.key, p, q);
    CancelPrefix([COLON], d.text + x, e.text + y);
  }

  lemma EntriesApart(d: Entry, e: Entry)
    requires Apart(d.text, e.text)
    ensures Apart(EntryText(d), EntryText(e))
    ensures EntryText(d) == EntryText(e) ==> d == e
  {
    forall x, y | Follows(x) && Follows(y) && EntryText(d) + x == EntryText(e) + y
      ensures d == e && x == y
    {
      EntryUnique(d, e, x, y);
    }
    if EntryText(d) == EntryText(e) {
      EntryUnique(d, e, [], []);
    }
  }

  lemma SameKindApart(a: Value, b: Value)
    requires WellFormed(a) && WellFormed(b) && Signature(a).Some? && Signature(b).Some?
    requires KindOf(a) == KindOf(b) ==> Apart(Signature(a).value, Signature(b).value)
    ensures Apart(Signature(a).value, Signature(b).value)
  {
    FirstUnit(a);
    FirstUnit(b);
    forall x, y | Follows(x) && Follows(y) && Signature(a).value + x == Signature(b).value + y
      ensures Signature(a) == Signature(b) && x == y
    {
      assert (Signature(a).value + x)[0] == (Signature(b).value + y)[0];
    }
  }

  lemma ItemsOpen(items: seq<Value>)
    requires forall i :: 0 <= i < |items| ==> WellFormed(items[i])
    requires ItemSignatures(items).Some?
    ensures Opening(ItemSignatures(items).value)
  {
    forall i | 0 <= i < |items| {
      FirstUnit(items[i]);
    }
  }

  lemma EntryTextsOpen(entries: seq<Entry>)
    ensures Opening(EntryTexts(entries))
  {
  }

  /** The field an entry of the sorted listing comes from. */
  lemma Origin(fields: seq<Field>, e: Entry) returns (i: nat)
    requires FieldSignatures(fields).Some? && e in Sort(FieldSignatures(fields).value)
    ensures i < |fields| && fields[i].key == e.key && Signature(fields[i].value) == Some(e.text)
    ensures FieldSignatures(fields).value[i] == e
  {
    i :| 0 <= i < |fields| && FieldSignatures(fields).value[i] == e;
  }

  lemma {:induction false} PrefixFree(a: Value, b: Value)
    requires WellFormed(a) && WellFormed(b) && Signature(a).Some? && Signature(b).Some?
    ensures Apart(Signature(a).value, Signature(b).value)
    decreases Size(a), 3
  {
    if KindOf(a) == KindOf(b) {
      forall x, y | Follows(x) && Follows(y) && Signature(a).value + x == Signature(b).value + y
        ensures Signature(a) == Signature(b) && x == y
      {
        UniqueWithinKind(a, b, x, y);
      }
    }
    SameKindApart(a, b);
  }

  lemma {:induction false} UniqueWithinKind(a: Value, b: Value, x: Text, y: Text)
    requires WellFormed(a) && WellFormed(b) && KindOf(a) == KindOf(b)
    requires Signature(a).Some? && Signature(b).Some? && Signature(a).value + x == Signature(b).value + y
    requires Follows(x) && Follows(y)
    ensures Signature(a) == Signature(b) && x == y
    decreases Size(a), 2
  {
    if a.Number? {
      NumberUnique(a.digits, b.digits, x, y);
    } else if a.String? {
      QuotedUnique(a.s, b.s, x, y);
    } else if a.Array? {
      ArraysUnique(a, b, x, y);
    } else if a.Object? {
      ObjectsUnique(a, b, x, y);
    } else {
      CancelPrefix(Signature(a).value, x, y);
    }
  }

  lemma {:induction false} ArraysUnique(a: Value, b: Value, x: Text, y: Text)
    requires a.Array? && b.Array? && WellFormed(a) && WellFormed(b)
    requires Signature(a).Some? && Signature(b).Some? && Signature(a).value + x == Signature(b).value + y
    ensures ItemSignatures(a.items) == ItemSignatures(b.items) && x == y
    decreases Size(a), 0
  {
    var ss, ts := ItemSignatures(a.items).value, ItemSignatures(b.items).value;
    forall i, j | 0 <= i < |ss| && 0 <= j < |ts| ensures Apart(ss[i], ts[j]) {
      PrefixFree(a.items[i], b.items[j]);
    }
    ItemsOpen(a.items);
    ItemsOpen(b.items);
    var p, q := Commas(ss) + [RBRACKET] + x, Commas(ts) + [RBRACKET] + y;
    assert Signature(a).value + x == [LBRACKET] + p && Signature(b).value + y == [LBRACKET] + q;
    CancelPrefix([LBRACKET], p, q);
    ListUnique(ss, ts, RBRACKET, x, y);
  }

  lemma {:induction false} ObjectEntriesApart(a: Value, b: Value, ds: seq<Entry>, es: seq<Entry>)
    requires a.Object? && b.Object? && WellFormed(a) && WellFormed(b)
    requires FieldSignatures(a.fields).Some? && ds == Sort(FieldSignatures(a.fields).value)
    requires FieldSignatures(b.fields).Some? && es == Sort(FieldSignatures(b.fields).value)
    ensures AllApart(EntryTexts(ds), EntryTexts(es))
    ensures EntryTexts(ds) == EntryTexts(es) ==> ds == es
    decreases Size(a), 0
  {
    var ss, ts := EntryTexts(ds), EntryTexts(es);
    forall i, j | 0 <= i < |ss| && 0 <= j < |ts|
      ensures Apart(ss[i], ts[j]) && (ss[i] == ts[j] ==> ds[i] == es[j])
    {
      var k := Origin(a.fields, ds[i]);
      var l := Origin(b.fields, es[j]);
      PrefixFree(a.fields[k].value, b.fields[l].value);
      EntriesApart(ds[i], es[j]);
    }
    if ss == ts {
      assert |ds| == |ss| == |ts| == |es|;
      assert forall i :: 0 <= i < |ds| ==> ss[i] == ts[i] && ds[i] == es[i];
    }
  }

  lemma {:induction false} ObjectsUnique(a: Value, b: Value, x: Text, y: Text)
    requires a.Object? && b.Object? && WellFormed(a) && WellFormed(b)
    requires Signature(a).Some? && Signature(b).Some? && Signature(a).value + x == Signature(b).value + y
    ensures Sort(FieldSignatures(a.fields).value) == Sort(FieldSignatures(b.fields).value) && x == y
    decreases Size(a), 1
  {
    var ds, es := Sort(FieldSignatures(a.fields).value), Sort(FieldSignatures(b.fields).value);
    ObjectEntriesApart(a, b, ds, es);
    EntryTextsOpen(ds);
    EntryTextsOpen(es);
    BracesUnique(EntryTexts(ds), EntryTexts(es), x, y);
  }

  lemma BracesUnique(ss: seq<Text>, ts: seq<Text>, x: Text, y: Text)
    requires Opening(ss) && Opening(ts) && AllApart(ss, ts)
    requires [LBRACE] + Commas(ss) + [RBRACE] + x == [LBRACE] + Commas(ts) + [RBRACE] + y
    ensures ss == ts && x == y
  {
    var p, q := Commas(ss) + [RBRACE], Commas(ts) + [RBRACE];
    assert [LBRACE] + Commas(ss) + [RBRACE] == [LBRACE] + p;
    assert [LBRACE] + Commas(ts) + [RBRACE] == [LBRACE] + q;
    CancelHead([LBRACE], p, q, x, y);
    ListUnique(ss, ts, RBRACE, x, y);
  }

  // The two directions.

  lemma {:induction false} EqualSignaturesSameValue(a: Value, b: Value)
    requires WellFormed(a) && WellFormed(b) && Signature(a).Some? && Signature(a) == Signature(b)
    ensures Same(a, b)
    decreases Size(a)
  {
    FirstUnit(a);
    FirstUnit(b);
    if a.String? {
      QuotedUnique(a.s, b.s, [], []);
    } else if a.Array? {
      ArraysUnique(a, b, [], []);
      forall i | 0 <= i < |a.items| ensures Same(a.items[i], b.items[i]) {
        EqualSignaturesSameValue(a.items[i], b.items[i]);
      }
    } else if a.Object? {
      ObjectsUnique(a, b, [], []);
      FieldsMatch(a, b);
    }
  }

  /** Equal listings of entries: every field of one object has its equal in the other. */
  lemma SameListing(s: seq<Field>, t: seq<Field>, i: nat) returns (j: nat)
    requires WellFormed(Object(t)) && FieldSignatures(s).Some? && FieldSignatures(t).Some?
    requires Sort(FieldSignatures(s).value) == Sort(FieldSignatures(t).value)
    requires i < |s|
    ensures j == IndexOf(t, s[i].key) < |t| && Signature(t[j].value) == Signature(s[i].value)
  {
    var e := FieldSignatures(s).value[i];
    assert e in FieldSignatures(s).value;
    j := Origin(t, e);
  }

  lemma {:induction false} FieldsMatch(a: Value, b: Value)
    requires a.Object? && b.Object? && WellFormed(a) && WellFormed(b)
    requires FieldSignatures(a.fields).Some? && FieldSignatures(b.fields).Some?
    requires Sort(FieldSignatures(a.fields).value) == Sort(FieldSignatures(b.fields).value)
    ensures Same(a, b)
    decreases Size(a), 0
  {
    var s, t := a.fields, b.fields;
    forall i | 0 <= i < |s|
      ensures IndexOf(t, s[i].key) < |t| && Same(s[i].value, t[IndexOf(t, s[i].key)].value)
    {
      var j := SameListing(s, t, i);
      EqualSignaturesSameValue(s[i].value, t[j].value);
    }
    forall j | 0 <= j < |t| ensures IndexOf(s, t[j].key) < |s| {
      var i := SameListing(t, s, j);
    }
  }

  lemma {:induction false} ItemsEqual(s: seq<Value>, t: seq<Value>)
    requires |s| == |t| && forall i :: 0 <= i < |s| ==> Signature(s[i]) == Signature(t[i])
    ensures ItemSignatures(s) == ItemSignatures(t)
  {
    if s != [] {
      ItemsEqual(s[1..], t[1..]);
    }
  }

  lemma {:induction false} FieldsRejected(fields: seq<Field>)
    ensures FieldSignatures(fields).None? <==>
              exists i :: 0 <= i < |fields| && Signature(fields[i].value).None?
  {
    if fields != [] {
      FieldsRejected(fields[1..]);
      if FieldSignatures(fields[1..]).None? {
        var i :| 0 <= i < |fields[1..]| && Signature(fields[1..][i].value).None?;
        assert fields[i + 1] == fields[1..][i];
      }
    }
  }

  lemma {:induction false} SameValueEqualSignatures(a: Value, b: Value)
    requires WellFormed(a) && WellFormed(b) && Same(a, b)
    ensures Signature(a) == Signature(b)
    decreases Size(a)
  {
    if a.Array? && b.Array? {
      forall i | 0 <= i < |a.items| ensures Signature(a.items[i]) == Signature(b.items[i]) {
        SameValueEqualSignatures(a.items[i], b.items[i]);
      }
      ItemsEqual(a.items, b.items);
    } else if a.Object? && b.Object? {
      forall i | 0 <= i < |a.fields|
        ensures Signature(a.fields[i].value) == Signature(b.fields[IndexOf(b.fields, a.fields[i].key)].value)
      {
        SameValueEqualSignatures(a.fields[i].value, b.fields[IndexOf(b.fields, a.fields[i].key)].value);
      }
      SameFields(a.fields, b.fields);
    }
  }

  /** Every field of `s` has a field of `t` with the same key and the same signature. */
  ghost predicate Covers(s: seq<Field>, t: seq<Field>) {
    forall i :: 0 <= i < |s| ==>
      IndexOf(t, s[i].key) < |t| && Signature(s[i].value) == Signature(t[IndexOf(t, s[i].key)].value)
  }

  lemma CoversBack(s: seq<Field>, t: seq<Field>)
    requires WellFormed(Object(t)) && Covers(s, t)
    requires forall j :: 0 <= j < |t| ==> IndexOf(s, t[j].key) < |s|
    ensures Covers(t, s)
  {
    forall j | 0 <= j < |t| ensures Signature(t[j].value) == Signature(s[IndexOf(s, t[j].key)].value) {
      var i := IndexOf(s, t[j].key);
      assert IndexOf(t, s[i].key) == j;
    }
  }

  lemma CoveredEntries(s: seq<Field>, t: seq<Field>)
    requires Covers(s, t)
    ensures FieldSignatures(s).None? ==> FieldSignatures(t).None?
    ensures FieldSignatures(s).Some? && FieldSignatures(t).Some? ==>
              forall e :: e in FieldSignatures(s).value ==> e in FieldSignatures(t).value
  {
    FieldsRejected(s);
    FieldsRejected(t);
    if FieldSignatures(s).Some? && FieldSignatures(t).Some? {
      var ds, es := FieldSignatures(s).value, FieldSignatures(t).value;
      forall e | e in ds ensures e in es {
        var i :| 0 <= i < |ds| && ds[i] == e;
        assert es[IndexOf(t, s[i].key)] == e;
      }
    }
  }

  lemma SameFields(s: seq<Field>, t: seq<Field>)
    requires WellFormed(Object(s)) && WellFormed(Object(t)) && Covers(s, t)
    requires forall j :: 0 <= j < |t| ==> IndexOf(s, t[j].key) < |s|
    ensures Signature(Object(s)) == Signature(Object(t))
  {
    CoversBack(s, t);
    CoveredEntries(s, t);
    CoveredEntries(t, s);
    if FieldSignatures(s).Some? {
      var ds, es := FieldSignatures(s).value, FieldSignatures(t).value;
      SortAscends(ds);
      SortAscends(es);
      AscendingIsUnique(Sort(ds), Sort(es));
    }
  }

  /** Accepted values have equal signatures exactly when they are the same JSON value. */
  lemma SignatureIsInjective(a: Value, b: Value)
    requires WellFormed(a) && WellFormed(b) && Signature(a).Some?
    ensures Signature(a) == Signature(b) <==> Same(a, b)
  {
    if Signature(a) == Signature(b) {
      EqualSignaturesSameValue(a, b);
    } else if Same(a, b) {
      SameValueEqualSignatures(a, b);
    }
  }

  /** A value is refused exactly when something inside it is not JSON. */
  ghost predicate HasNonJson(v: Value)
    decreases v
  {
    match v
    case NotJson => true
    case Array(items) => exists i :: 0 <= i < |items| && HasNonJson(items[i])
    case Object(fields) => exists i :: 0 <= i < |fields| && HasNonJson(fields[i].value)
    case _ => false
  }

  lemma {:induction false} ItemsRejected(items: seq<Value>)
    ensures ItemSignatures(items).None? <==> exists i :: 0 <= i < |items| && Signature(items[i]).None?
  {
    if items != [] {
      ItemsRejected(items[1..]);
      if ItemSignatures(items[1..]).None? {
        var i :| 0 <= i < |items[1..]| && Signature(items[1..][i]).None?;
        assert items[i + 1] == items[1..][i];
      }
    }
  }

  lemma {:induction false} RefusedExactlyWhenNotJson(v: Value)
    ensures Signature(v).None? <==> HasNonJson(v)
    decreases Size(v)
  {
    match v
    case Array(items) =>
      ItemsRejected(items);
      forall i | 0 <= i < |items| ensures Signature(items[i]).None? <==> HasNonJson(items[i]) {
        RefusedExactlyWhenNotJson(items[i]);
      }
    case Object(fields) =>
      FieldsRejected(fields);
      forall i | 0 <= i < |fields| ensures Signature(fields[i].value).None? <==> HasNonJson(fields[i].value) {
        RefusedExactlyWhenNotJson(fields[i].value);
      }
    case _ =>
  }
}
